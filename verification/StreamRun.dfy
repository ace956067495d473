/** The per-connection delivery loop (internal/realtime/stream.go, with
    ephemeral.go, sidebar.go and channel_state.go). Everything outside the
    loop answers through a script: every call takes the next answer, and the
    theorems hold for every script. The effects are logged; the log is proved
    orderly in the sense of DeliveryLog. */
module StreamRun {
  import opened Common
  import opened DeliveryLog

  datatype Event = Event(seqNo: int, organization: nat, channel: nat, audience: Option<nat>)

  /** Where an owner's frame belongs. */
  datatype Scope = Scope(organization: nat, channel: nat, topic: Option<nat>)

  /** One answer of the outside world; each call reads the fields it needs.
      `ended` is the stream's own context, `due` a deadline that has come, and
      `named` whether there is a frame, which `scope` places. */
  datatype Answer = Answer(
    fails: bool, ended: bool, yes: bool, due: bool, expired: bool, deferred: bool, named: bool, resets: bool,
    rows: seq<Event>, level: int, change: nat, scope: Scope)

  const NOTHING_MORE := Answer(true, true, false, false, false, false, false, false, [], 0, 0, Scope(0, 0, None))

  datatype Stop = Failure | Cancelled | Revoked

  /** How a run ends. A negative cursor is refused. */
  datatype Ending = Refused | ResetSent | Stopped(stop: Stop)

  /** Which of the optional parts a stream has. */
  datatype Subscription = Subscription(
    organization: nat, channel: nat, topic: Option<nat>, member: nat, presence: bool, typing: bool, sidebar: bool, channelState: bool)

  /** The answer is a reason to stop like this. */
  predicate Because(stop: Stop, a: Answer) {
    match stop
    case Failure => a.fails
    case Cancelled => a.ended
    case Revoked => !a.yes
  }

  datatype Choice = Choice(selected: bool, failed: bool, next: nat)

  datatype Screening = Excluded(fate: Fate, next: nat) | Passed(next: nat)

  datatype Fate = Sends | Skips(why: Why) | Stops(stop: Stop)

  /** One event's turn: it came as the row `place` of the answer numbered
      `read`, the answers from `begin` on say what it triggers, and those from
      `at` on decide it. */
  datatype Turn = Turn(event: Event, read: nat, place: nat, begin: nat, at: nat)

  /** How the check of the bound membership ends. */
  function Bound(a: Answer): Option<Stop> {
    if a.fails then Some(Failure) else if a.ended then Some(Cancelled) else if !a.yes then Some(Revoked) else None
  }

  /** A pending coalesced refresh. */
  datatype Sidebar = Sidebar(dirty: bool, observed: nat, covered: nat)

  /** Run's variables: the cursor, the durable level last reported, the level
      covered by the last read, and what the stream still owes. */
  datatype Locals = Locals(
    pos: int, seen: int, covered: int, draining: bool, connected: bool,
    presence: int, typing: int, channel: bool, sidebar: Sidebar)

  /** The variables describe what the log says has happened. */
  ghost predicate Agrees(l: Locals, d: Digest) {
    && !d.closed && d.upTo == d.cursor == l.pos && l.seen == d.seen
    && l.presence == d.presence && l.typing == d.typing
    && l.sidebar.observed == d.observed && l.sidebar.covered == d.covered
    && (!l.draining ==> d.short && l.covered <= Max(l.pos, d.known))
    && (d.channel.owed ==> l.channel) && Idle(l.connected, d)
  }

  /** Nothing due is left undone, every owner's answer counts as seen, and the
      owners wanted are asked on connecting. */
  ghost predicate Idle(connected: bool, d: Digest) {
    && d.duties.due == {} && d.owners.told.None?
    && (if connected then d.owners.wanted <= d.owners.asked else d.owners.asked == {})
  }

  /** They do, with the last `count` events it says were read still to take. */
  ghost predicate Opened(l: Locals, d: Digest, count: nat) {
    && !d.closed && d.cursor == l.pos && d.upTo == d.cursor + count && l.seen == d.seen
    && l.presence == d.presence && l.typing == d.typing
    && l.sidebar.observed == d.observed && l.sidebar.covered == d.covered
    && (!l.draining ==> d.short && l.seen <= l.covered <= Max(l.pos, d.known))
    && (d.channel.owed ==> l.channel) && Idle(l.connected, d)
  }

  lemma Batched(l: Locals, d: Digest, count: nat, mid: Digest, m: Locals, e: Digest)
    requires Opened(l, d, count) && SameReads(d.(channel := mid.channel), mid)
    requires SameReads(mid.(duties := e.duties), e) && e.duties == mid.duties
    requires !e.closed && e.cursor == mid.cursor == mid.upTo == m.pos && (mid.channel.owed ==> m.channel)
    requires m == l.(pos := m.pos, channel := m.channel, sidebar := m.sidebar, covered := Max(m.pos, l.covered))
    requires m.sidebar.observed == l.sidebar.observed && m.sidebar.covered == l.sidebar.covered
    ensures Agrees(m, e) && (!m.draining ==> m.seen <= m.covered) && e.cursor == e.upTo
  {
  }

  class Stream {
    const sub: Subscription
    const batch: nat
    const heartbeats: bool     // the heartbeat interval is positive
    const limited: bool        // recounts share a limit
    const watches: bool        // read changes are watched
    const owned: Kind -> bool  // the kind has an owner
    const start: int
    const script: seq<Answer>
    var at: nat
    var cursor: int            // transportSender: the last ID written
    var progress: int
    var log: seq<Entry>

    constructor (sub: Subscription, batchSize: int, heartbeats: bool, limited: bool, watches: bool,
                 owned: Kind -> bool, start: int, script: seq<Answer>)
      ensures Valid() && D() == Start(start) && log == []
      ensures this.start == start && this.sub == sub && this.script == script
    {
      this.sub, this.heartbeats, this.limited, this.watches := sub, heartbeats, limited, watches;
      this.owned, this.start, this.script := owned, start, script;
      batch := if batchSize <= 0 then 100 else batchSize;
      at, cursor, progress, log := 0, start, start, [];
    }

    ghost predicate Valid()
      reads this
    {
      at <= |script| && Orderly(start, log) && cursor == D().lastId && batch > 0 && Truthful(log)
    }

    /** What the log says of an answer is what the script has there. */
    ghost predicate Truthful(log: seq<Entry>) {
      forall e :: e in log ==> TrueTo(e)
    }

    ghost predicate TrueTo(e: Entry) {
      match e
      case Told(kind, g, named, resets, k) =>
        k < |script| && g == script[k].level && resets == script[k].resets && (named <==> script[k].named && Meant(kind, script[k].scope))
      case Due(_, k) => k < |script| && script[k].due
      case Early(_, k) => !Answered(k).due
      case Deferred(k) => k < |script| && script[k].deferred
      case Reset(id, k) => Answered(k).expired || (!Answered(k).fails && !Continues(id, Answered(k).rows))
      case Waiting(_, _, _, _, _, _, beats) => beats == heartbeats
      case _ => true
    }

    /** The frame belongs here: to the organisation, and for typing to the
        channel, and to the topic if the stream is about one. */
    predicate Meant(kind: Kind, scope: Scope) {
      && scope.organization == sub.organization
      && (kind.Typing? ==> scope.channel == sub.channel && (sub.topic.Some? ==> scope.topic == sub.topic))
    }

    /** The last answer taken is a reason to stop, or there are no more. */
    ghost predicate Blamed(stop: Stop)
      reads this
    {
      at >= |script| || (at > 0 && Because(stop, script[at - 1]))
    }

    /** The kinds the stream wants that have an owner. */
    ghost function Wanted(): set<Kind> {
      (if sub.presence && owned(Presence) then {Presence} else {}) + (if sub.typing && owned(Typing) then {Typing} else {})
    }

    ghost function D(): Digest
      reads this
    {
      Digested(start, log)
    }

    /** The k-th answer; once the script is used up, everything fails. */
    ghost function Answered(k: nat): Answer {
      if k < |script| then script[k] else NOTHING_MORE
    }

    method Ask() returns (a: Answer)
      requires Valid()
      modifies this`at
      ensures Valid() && a == Answered(old(at)) && at == Min(old(at) + 1, |script|)
      ensures at == old(at) ==> a == NOTHING_MORE
    {
      if at == |script| {
        return NOTHING_MORE;
      }
      a := script[at];
      at := at + 1;
    }

    method Note(e: Entry)
      requires Valid() && Allowed(D(), e) && Step(D(), e).lastId == cursor && TrueTo(e)
      modifies this`log
      ensures Valid() && log == old(log) + [e] && D() == Step(old(D()), e)
      ensures Decisions(log) == old(Decisions(log)) + Decided(e)
    {
      hide Orderly, Digested, Allowed, Step, Decisions, TrueTo;
      Append(start, log, e);
      log := log + [e];
    }

    /** transportSender.Send: an ID counts as written only if the write succeeds. */
    method Send(e: Entry) returns (stop: Option<Stop>)
      requires Valid() && Allowed(D(), e) && Writes(e) && TrueTo(e)
      modifies this`at, this`cursor, this`log
      ensures Valid() && old(at) <= at
      ensures stop == if Answered(old(at)).fails then Some(Failure) else None
      ensures at == Min(old(at) + 1, |script|) && (stop.Some? ==> Blamed(stop.value))
      ensures stop.None? ==> at > old(at) && log == old(log) + [e] && D() == Step(old(D()), e)
      ensures stop.None? ==> Decisions(log) == old(Decisions(log)) + Decided(e)
      ensures stop.Some? ==> log == old(log)
    {
      hide Orderly, Digested, Allowed, Decisions, TrueTo, Step;
      stop := None;
      var a := Ask();
      if a.fails {
        return Some(Failure);
      }
      WrittenId(D(), e);
      Append(start, log, e);
      log := log + [e];
      match e
      case Delivered(s, _) => cursor := s;
      case Checkpoint(id) => cursor := id;
      case Reset(id, _) => cursor := id;
      case _ =>
    }

    /** checkMember: the stream's own member, on a fresh check, last before a write. */
    method CheckMember() returns (stop: Option<Stop>)
      requires Valid() && !D().closed
      modifies this`at, this`log
      ensures Valid() && at == Min(old(at) + 1, |script|) && stop == Bound(Answered(old(at)))
      ensures stop.Some? ==> Blamed(stop.value)
      ensures stop.None? ==> at > old(at) && log == old(log) + [Checked] && D() == old(D()).(checked := true, waiting := false)
      ensures Decisions(log) == old(Decisions(log))
      ensures stop.Some? ==> log == old(log)
    {
      var a := Ask();
      if a.fails {
        return Some(Failure);
      }
      if a.ended {
        return Some(Cancelled);
      }
      if !a.yes {
        return Some(Revoked);
      }
      Note(Checked);
      return None;
    }

    /** Whether the event is selected, by its own render or the shared unread
        one; a render that fails stops the stream. */
    method Selected() returns (selected: bool, stop: Option<Stop>)
      requires Valid()
      modifies this`at
      ensures Valid() && at == Min(Chosen(old(at)).next, |script|) && (stop.Some? ==> Blamed(stop.value))
      ensures Chosen(old(at)) == Choice(selected, stop.Some?, Chosen(old(at)).next) && (stop.Some? ==> stop.value.Failure?)
    {
      var a := Ask();
      selected := a.yes;
      var failed := false;
      if selected {
        a := Ask();
        failed, selected := a.fails, a.yes;
      }
      if !failed && !selected && sub.sidebar {
        a := Ask();
        failed, selected := a.fails, a.named;
      }
      return selected, if failed then Some(Failure) else None;
    }

    /** Selection starting at the k-th answer. */
    ghost function Chosen(k: nat): Choice {
      var own := if Answered(k).yes then Choice(Answered(k + 1).yes, Answered(k + 1).fails, k + 2) else Choice(false, false, k + 1);
      if !own.failed && !own.selected && sub.sidebar
      then Choice(Answered(own.next).named, Answered(own.next).fails, own.next + 1) else own
    }

    /** What excludes an event before anyone is authorized, if anything does,
        and the position of the next answer. */
    ghost function Screened(event: Event, k: nat): Screening {
      var choice := Chosen(k + 2);
      if Answered(k).ended then Excluded(Stops(Cancelled), k + 1)
      else if event.organization != sub.organization then Excluded(Skips(Elsewhere), k + 1)
      else if !Answered(k + 1).yes then Excluded(Skips(Filtered), k + 2)
      else if choice.failed then Excluded(Stops(Failure), choice.next)
      else if !choice.selected then Excluded(Skips(Unwanted), choice.next)
      else Passed(choice.next)
    }

    /** Who may have it: an audience that is not this stream's member first,
        the stream's own member last, and only then the write. */
    ghost function Authorized(event: Event, k: nat): Fate {
      var foreign := event.audience.Some? && event.audience.value != sub.member;
      var next := if foreign then k + 1 else k;
      if foreign && Answered(k).fails then Stops(Failure)
      else if Bound(Answered(next)).Some? then Stops(Bound(Answered(next)).value)
      else if foreign && !Answered(k).yes then Skips(Denied)
      else if Answered(next + 1).fails then Stops(Failure)
      else Sends
    }

    /** What becomes of an event, given the answers from the k-th on. */
    ghost function Fated(event: Event, k: nat): Fate {
      match Screened(event, k)
      case Excluded(fate, _) => fate
      case Passed(next) => Authorized(event, next)
    }

    /** The position after the authorization that starts at the k-th answer. */
    ghost function Settled(event: Event, k: nat): nat {
      var foreign := event.audience.Some? && event.audience.value != sub.member;
      var next := if foreign then k + 1 else k;
      if foreign && Answered(k).fails then k + 1
      else if Bound(Answered(next)).Some? || (foreign && !Answered(k).yes) then next + 1
      else next + 2
    }

    /** The position after what becomes of an event, from the k-th answer on. */
    ghost function Ended(event: Event, k: nat): nat {
      match Screened(event, k)
      case Excluded(_, next) => next
      case Passed(next) => Settled(event, next)
    }

    predicate Foreign(event: Event) {
      event.audience.Some? && event.audience.value != sub.member
    }

    /** The stream's own render, asked from the k-th answer on, takes the event. */
    ghost predicate OwnRender(k: nat) {
      Answered(k).yes && Answered(k + 1).yes && !Answered(k + 1).fails
    }

    /** The render shared with the other streams does, asked once its own did not. */
    ghost predicate SharedRender(k: nat) {
      && sub.sidebar && (Answered(k).yes ==> !Answered(k + 1).yes && !Answered(k + 1).fails)
      && var shared := Answered(if Answered(k).yes then k + 2 else k + 1); shared.named && !shared.fails
    }

    /** What an event that is sent has behind it: the stream lived, the event is
        its organisation's, the filter let it through and one of the renders took
        it; whoever it was meant for was admitted; and of the last two answers
        one confirmed the stream's own member and the other the write. */
    lemma SentHasGrounds(event: Event, k: nat)
      requires Fated(event, k).Sends?
      ensures !Answered(k).ended && event.organization == sub.organization && Answered(k + 1).yes
      ensures OwnRender(k + 2) || SharedRender(k + 2)
      ensures Ended(event, k) >= k + 2 + (if Foreign(event) then 3 else 2)
      ensures Foreign(event) ==> Answered(Ended(event, k) - 3).yes && !Answered(Ended(event, k) - 3).fails
      ensures Bound(Answered(Ended(event, k) - 2)).None? && !Answered(Ended(event, k) - 1).fails
    {
    }

    /** An event is skipped for the reason given, and only for that: nothing was
        the matter with what is asked before it. */
    lemma SkippedForItsReason(event: Event, k: nat)
      requires Fated(event, k).Skips?
      ensures !Answered(k).ended
      ensures match Fated(event, k).why
              case Elsewhere => event.organization != sub.organization && Ended(event, k) == k + 1
              case Filtered => event.organization == sub.organization && !Answered(k + 1).yes && Ended(event, k) == k + 2
              case Unwanted =>
                event.organization == sub.organization && Answered(k + 1).yes && !OwnRender(k + 2) && !SharedRender(k + 2)
              case Denied =>
                && event.organization == sub.organization && Answered(k + 1).yes && (OwnRender(k + 2) || SharedRender(k + 2))
                && Foreign(event) && Ended(event, k) >= k + 4 && !Answered(Ended(event, k) - 2).yes
                && Bound(Answered(Ended(event, k) - 1)).None?
    {
    }

    method Screen(event: Event) returns (why: Option<Why>, stop: Option<Stop>)
      requires Valid()
      modifies this`at
      ensures Valid() && old(at) <= at == Min(Screened(event, old(at)).next, |script|)
      ensures stop.Some? ==> Blamed(stop.value)
      ensures var s := Screened(event, old(at));
              if stop.Some? then s == Excluded(Stops(stop.value), s.next)
              else if why.Some? then s == Excluded(Skips(why.value), s.next) && !why.value.Denied?
              else s.Passed?
      ensures stop.None? ==> old(at) < at
    {
      why, stop := None, None;
      var a := Ask();
      if a.ended {
        return None, Some(Cancelled);
      }
      if event.organization != sub.organization {
        return Some(Elsewhere), None;
      }
      a := Ask();
      if !a.yes {
        return Some(Filtered), None;
      }
      var selected;
      selected, stop := Selected();
      if stop.None? && !selected {
        why := Some(Unwanted);
      }
    }

    /** deliver: sends the event or finds a reason to skip it. A failure of any
        kind leaves the event undecided. */
    method Deliver(event: Event) returns (sent: bool, why: Why, stop: Option<Stop>)
      requires Valid() && !D().closed && event.seqNo == D().cursor + 1 <= D().upTo
      modifies this`at, this`cursor, this`log
      ensures Valid() && old(at) <= at && !D().closed
      ensures stop.None? ==> old(at) < at
      ensures Fated(event, old(at)) == if stop.Some? then Stops(stop.value) else if sent then Sends else Skips(why)
      ensures at == Min(Ended(event, old(at)), |script|) && (stop.Some? ==> Blamed(stop.value))
      ensures Decisions(log) == old(Decisions(log)) + if stop.None? && sent then [Decision(event.seqNo, None)] else []
      ensures D().cursor == if stop.None? && sent then event.seqNo else old(D().cursor)
      ensures stop.None? && !sent ==> Allowed(D(), Skipped(event.seqNo, why))
      ensures SameReads(old(D()), D())
    {
      hide Orderly, Truthful, Digested, Decisions, Screened;
      var excluded;
      excluded, stop := Screen(event);
      if stop.Some? {
        return false, Elsewhere, stop;
      }
      if excluded.Some? {
        return false, excluded.value, None;
      }
      sent, stop := Authorize(event);
      why := Denied;
    }

    /** Whether another member's audience includes this stream's account. */
    method Admit(event: Event) returns (allowed: bool, stop: Option<Stop>)
      requires Valid() && !D().closed && event.seqNo == D().cursor + 1
      modifies this`at, this`log
      ensures Valid() && at == Min(old(at) + 1, |script|) && Decisions(log) == old(Decisions(log))
      ensures stop.Some? ==> Blamed(stop.value)
      ensures stop == if Answered(old(at)).fails then Some(Failure) else None
      ensures stop.None? ==> old(at) < at && allowed == Answered(old(at)).yes && D() == Step(old(D()), Admitted(event.seqNo, allowed))
      ensures stop.Some? ==> D() == old(D())
    {
      hide Orderly, Truthful, Digested, Decisions;
      var a := Ask();
      if a.fails {
        return false, Some(Failure);
      }
      Note(Admitted(event.seqNo, a.yes));
      return a.yes, None;
    }

    method Authorize(event: Event) returns (sent: bool, stop: Option<Stop>)
      requires Valid() && !D().closed && event.seqNo == D().cursor + 1 <= D().upTo
      modifies this`at, this`cursor, this`log
      ensures Valid() && old(at) <= at && !D().closed
      ensures Authorized(event, old(at)) == if stop.Some? then Stops(stop.value) else if sent then Sends else Skips(Denied)
      ensures at == Min(Settled(event, old(at)), |script|) && (stop.Some? ==> Blamed(stop.value))
      ensures Decisions(log) == old(Decisions(log)) + if stop.None? && sent then [Decision(event.seqNo, None)] else []
      ensures D().cursor == if stop.None? && sent then event.seqNo else old(D().cursor)
      ensures stop.None? && !sent ==> D().denied == Some(event.seqNo)
      ensures SameReads(old(D()), D())
    {
      hide Orderly, Truthful, Digested, Decisions;
      sent := false;
      var foreign, allowed := event.audience.Some? && event.audience.value != sub.member, true;
      if foreign {
        allowed, stop := Admit(event);
        if stop.Some? {
          return;
        }
      }
      stop := CheckMember();
      if stop.Some? || !allowed {
        return;
      }
      stop := Send(Delivered(event.seqNo, foreign));
      sent := stop.None?;
    }

    /** A heartbeat that is due is a comment, or the pending progress under the
        same check. */
    method Heartbeat() returns (stop: Option<Stop>)
      requires Valid() && !D().closed && progress == D().cursor && Beat in D().duties.due
      modifies this`at, this`cursor, this`log
      ensures Valid() && old(at) <= at && !D().closed
      ensures SameReads(old(D()).(duties := D().duties), D()) && D().cursor == old(D().cursor)
      ensures stop.None? ==> D().duties == Duties(old(D().duties.due) - {Beat}, old(D().duties.early))
      ensures stop.None? ==> log == old(log) + [Checked, if progress > old(cursor) then Entry.Checkpoint(progress) else Comment]
      ensures stop.Some? ==> Blamed(stop.value)
      ensures Decisions(log) == old(Decisions(log))
    {
      hide Orderly, Truthful, Digested, Decisions;
      IdBelowCursor();
      stop := CheckMember();
      if stop.Some? {
        return;
      }
      if progress > cursor {
        stop := Send(Entry.Checkpoint(progress));
      } else {
        stop := Send(Comment);
      }
    }

    /** A frame without an ID, after its own membership check. */
    method SendFrame(e: Entry) returns (stop: Option<Stop>)
      requires Valid() && !D().closed
      requires (e.Frame? || e.Recounted? || e.Renewed?) && Allowed(D().(checked := true, waiting := false), e)
      modifies this`at, this`cursor, this`log
      ensures Valid() && old(at) <= at && SamePlace(old(D()), D())
      ensures at == Min(old(at) + if Bound(Answered(old(at))).Some? then 1 else 2, |script|)
      ensures stop.Some? ==> Blamed(stop.value)
      ensures Decisions(log) == old(Decisions(log))
      ensures stop.None? ==> D() == Step(old(D()), e)
      ensures stop.Some? ==> D() == old(D()).(checked := D().checked, waiting := D().waiting)
    {
      stop := CheckMember();
      if stop.None? {
        stop := Send(e);
      }
    }

    /** refreshChannel: sends the channel's whole state if it is due. What
        called for it stays owed until a read begun later is written. */
    method RefreshChannel(dirty: bool) returns (still: bool, stop: Option<Stop>)
      requires Valid() && !D().closed && (D().channel.owed ==> dirty) && D().duties.due == {}
      modifies this`at, this`cursor, this`log
      ensures Valid() && old(at) <= at == Min(Refreshed(old(at), dirty), |script|) && !D().closed
      ensures SameReads(old(D()).(channel := D().channel, duties := D().duties), D()) && SamePlace(old(D()), D())
      ensures D().channel.calls == old(D().channel.calls) && (D().channel.owed ==> still)
      ensures stop.None? ==> D().duties.due == {} && old(D().duties.early) <= D().duties.early && (still ==> Refresh in D().duties.early)
      ensures stop.Some? ==> Blamed(stop.value)
      ensures Decisions(log) == old(Decisions(log))
    {
      hide Orderly, Truthful, Digested, Decisions;
      still, stop := dirty, None;
      if !dirty {
        return;
      }
      var k := at;
      var a := Ask();
      if !a.due {
        Note(Early(Refresh, k));
        return;
      }
      Note(Due(Refresh, k));
      if a.ended {
        return still, Some(Cancelled);
      }
      stop := Renew();
      still := stop.Some?;
    }

    /** Reads the channel's whole state and writes it, after a fresh check. */
    method Renew() returns (stop: Option<Stop>)
      requires Valid() && !D().closed
      modifies this`at, this`cursor, this`log
      ensures Valid() && old(at) <= at == Min(AfterRenewal(old(at)), |script|) && !D().closed
      ensures SameReads(old(D()).(channel := D().channel, duties := D().duties), D()) && SamePlace(old(D()), D())
      ensures D().channel == Channel(stop.Some? && old(D().channel.owed), stop.Some?, old(D().channel.calls))
      ensures stop.None? ==> D().duties == Duties(old(D().duties.due) - {Refresh}, old(D().duties.early))
      ensures stop.Some? ==> Blamed(stop.value)
      ensures Decisions(log) == old(Decisions(log))
    {
      hide Orderly, Truthful, Digested, Decisions, Allowed, Step;
      RenewSteps(D());
      Note(Renewing);
      var a := Ask();
      if a.ended {
        return Some(Cancelled);
      }
      if a.fails {
        return Some(Failure);
      }
      RenewSteps(D());
      stop := SendFrame(Renewed);
    }

    /** The position after a channel's state read with the k-th answer. */
    ghost function AfterRenewal(k: nat): nat {
      if Answered(k).ended || Answered(k).fails then k + 1
      else if Bound(Answered(k + 1)).Some? then k + 2
      else k + 3
    }

    /** The position after a refresh that starts at the k-th answer. */
    ghost function Refreshed(k: nat, dirty: bool): nat {
      if !dirty then k
      else if !Answered(k).due || Answered(k).ended then k + 1
      else AfterRenewal(k + 1)
    }

    /** recount: captures the watch, and writes a recount begun after the
        capture if one is due; otherwise what is not covered stays pending. */
    method Recount(pending: Sidebar) returns (p: Sidebar, stop: Option<Stop>)
      requires Valid() && !D().closed && pending.observed == D().observed && pending.covered == D().covered && D().duties.due == {}
      modifies this`at, this`cursor, this`log
      ensures Valid() && old(at) <= at && !D().closed
      ensures SameReadsBut(old(D()), D()) && SamePlace(old(D()), D())
      ensures Decisions(log) == old(Decisions(log))
      ensures stop.None? ==> p.observed == D().observed && p.covered == D().covered
      ensures stop.None? && watches && p.observed > p.covered ==> p.dirty
      ensures stop.None? ==> D().duties.due == {} && old(D().duties.early) <= D().duties.early && (p.dirty ==> Duty.Recount in D().duties.early)
      ensures stop.Some? ==> Blamed(stop.value)
      ensures !watches ==> D().observed == old(D().observed)
    {
      hide Orderly, Truthful, Digested, Decisions;
      p, stop := pending, None;
      if watches {
        p := Capture(pending);
      }
      if p.dirty {
        p, stop := RecountIfDue(p);
      }
    }

    /** Captures the watch's generation; one above what is covered makes a recount due. */
    method Capture(pending: Sidebar) returns (p: Sidebar)
      requires Valid() && !D().closed && pending.covered == D().covered
      modifies this`at, this`log
      ensures Valid() && old(at) <= at && p.observed == Answered(old(at)).change && p.covered == pending.covered
      ensures D() == Step(old(D()), Observed(p.observed)) && Decisions(log) == old(Decisions(log))
      ensures p.dirty <==> pending.dirty || p.observed > p.covered
    {
      hide Orderly, Truthful, Digested, Decisions;
      var a := Ask();
      Note(Observed(a.change));
      return pending.(observed := a.change, dirty := pending.dirty || a.change > pending.covered);
    }

    /** Reads the counts and writes them, unless it is too early or deferred;
        what is published during the read stays above what is covered. */
    method RecountIfDue(pending: Sidebar) returns (p: Sidebar, stop: Option<Stop>)
      requires Valid() && !D().closed && pending.observed == D().observed && pending.covered == D().covered && pending.dirty
      requires D().duties.due == {}
      modifies this`at, this`cursor, this`log
      ensures Valid() && old(at) <= at && !D().closed
      ensures SameReadsBut(old(D()), D()) && SamePlace(old(D()), D()) && D().observed == old(D().observed)
      ensures Decisions(log) == old(Decisions(log)) && p.observed == pending.observed
      ensures stop.None? ==> p.covered == D().covered && (p.dirty || p.covered == p.observed)
      ensures stop.None? ==> D().duties.due == {} && old(D().duties.early) <= D().duties.early && (p.dirty ==> Duty.Recount in D().duties.early)
      ensures stop.Some? ==> Blamed(stop.value)
    {
      hide Orderly, Truthful, Digested, Decisions;
      p, stop := pending, None;
      var k := at;
      var a := Ask();
      if !a.due {
        Note(Early(Duty.Recount, k));
        return;
      }
      if a.ended {
        return p, Some(Cancelled);
      }
      Note(Due(Duty.Recount, k));
      p, stop := CountAndSend(pending);
    }

    /** The read of the counts that is due, and its write. */
    method CountAndSend(pending: Sidebar) returns (p: Sidebar, stop: Option<Stop>)
      requires Valid() && !D().closed && pending.observed == D().observed && pending.covered == D().covered && pending.dirty
      modifies this`at, this`cursor, this`log
      ensures Valid() && old(at) <= at && !D().closed
      ensures SameReadsBut(old(D()), D()) && SamePlace(old(D()), D()) && D().observed == old(D().observed)
      ensures Decisions(log) == old(Decisions(log)) && p.observed == pending.observed
      ensures stop.None? ==> p.covered == D().covered && (p.dirty || p.covered == p.observed)
      ensures stop.None? ==> D().duties == Duties(old(D().duties.due) - {Duty.Recount},
                                                  old(D().duties.early) + if p.dirty then {Duty.Recount} else {})
      ensures stop.Some? ==> Blamed(stop.value)
    {
      hide Orderly, Truthful, Digested, Decisions;
      p, stop := pending, None;
      Note(Counting);
      var k := at;
      var a := Ask();
      if a.deferred {
        Note(Deferred(k));
        return;
      }
      if a.fails {
        return p, Some(Failure);
      }
      if a.ended {
        return p, Some(Cancelled);
      }
      stop := SendFrame(Recounted(p.observed));
      if stop.None? {
        p := p.(covered := p.observed, dirty := false);
      }
    }

    /** One kind of ephemeral state: its generation counts as seen only after
        its owner has read it, and a frame goes out if it changed here. */
    method Ephemeral(kind: Kind, seen: int, latest: int, connect: bool) returns (now: int, reset: bool, stop: Option<Stop>)
      requires Valid() && !D().closed && seen == Seen(D(), kind) && D().owners.told.None?
      requires if connect then kind !in D().owners.asked else kind in Wanted() ==> kind in D().owners.asked
      modifies this`at, this`cursor, this`log
      ensures Valid() && old(at) <= at && SamePlace(old(D()), D())
      ensures LastRead(old(D()), D()) && D().observed == old(D().observed) && D().covered == old(D().covered)
      ensures Decisions(log) == old(Decisions(log)) && D().duties == old(D().duties)
      ensures D().closed <==> reset
      ensures reset ==> stop.None?
      ensures stop.Some? ==> Blamed(stop.value)
      ensures D().owners.wanted == old(D().owners.wanted)
      ensures stop.None? && !reset ==>
                && now == Seen(D(), kind)
                && if kind.Presence? then D().typing == old(D().typing) else D().presence == old(D().presence)
      ensures stop.None? && !reset ==>
                && D().owners.told.None? && old(D().owners.asked) <= D().owners.asked <= old(D().owners.asked) + {kind}
                && (kind in Wanted() ==> kind in D().owners.asked)
    {
      hide Orderly, Truthful, Digested, Decisions;
      now, reset, stop := seen, false, None;
      if !(if kind.Presence? then sub.presence else sub.typing) {
        return;
      }
      if !owned(kind) {
        Note(Unowned(kind, latest));
        return latest, false, None;
      }
      if !connect && latest <= seen {
        return;
      }
      now, reset, stop := OwnersFrame(kind, seen, connect);
    }

    /** Reads the owner's state, and writes it if it says something new here. */
    method OwnersFrame(kind: Kind, seen: int, connect: bool) returns (now: int, reset: bool, stop: Option<Stop>)
      requires Valid() && !D().closed && seen == Seen(D(), kind) && D().owners.told.None?
      requires connect <==> kind !in D().owners.asked
      modifies this`at, this`cursor, this`log
      ensures Valid() && old(at) <= at && SamePlace(old(D()), D())
      ensures LastRead(old(D()), D()) && D().observed == old(D().observed) && D().covered == old(D().covered)
      ensures Decisions(log) == old(Decisions(log)) && D().duties == old(D().duties)
      ensures D().closed <==> reset
      ensures reset ==> stop.None?
      ensures stop.Some? ==> Blamed(stop.value)
      ensures D().owners.wanted == old(D().owners.wanted)
      ensures stop.None? && !reset ==>
                && now == Seen(D(), kind)
                && if kind.Presence? then D().typing == old(D().typing) else D().presence == old(D().presence)
      ensures stop.None? && !reset ==> D().owners.told.None? && D().owners.asked == old(D().owners.asked) + {kind}
    {
      hide Orderly, Truthful, Digested, Decisions, Allowed, Step, TrueTo;
      now, reset, stop := seen, false, None;
      var a := Ask();
      if a.ended {
        return seen, false, Some(Cancelled);
      }
      var k := at;
      a := Ask();
      if a.fails {
        return seen, false, Some(Failure);
      }
      var named := a.named && Meant(kind, a.scope);
      Hear(kind, a, named, k);
      if (connect || a.level > seen) && named {
        reset, stop := Show(a.resets);
        if reset || stop.Some? {
          return;
        }
      }
      now := See(kind, a.level, seen);
    }

    /** Takes down what the owner answered. */
    method Hear(kind: Kind, a: Answer, named: bool, k: nat)
      requires Valid() && !D().closed && D().owners.told.None?
      requires k < |script| && a == script[k] && (named <==> a.named && Meant(kind, a.scope))
      modifies this`log
      ensures Valid() && !D().closed && OnlyOwners(old(D()), D()) && Decisions(log) == old(Decisions(log))
      ensures D().owners == Owners(old(D().owners.wanted), old(D().owners.asked) + {kind},
                                   Some(Telling(kind, a.level, News(old(D()), kind, a.level, named), a.resets, false)))
      ensures D().presence == old(D().presence) && D().typing == old(D().typing)
    {
      hide Orderly, Truthful, Digested, Decisions, Allowed, Step;
      ToldStep(D(), kind, a.level, named, a.resets, k);
      Note(Told(kind, a.level, named, a.resets, k));
    }

    /** The generation that the owner answered counts as seen. */
    method See(kind: Kind, generation: int, seen: int) returns (now: int)
      requires Valid() && !D().closed && D().owners.told.Some? && seen == Seen(D(), kind)
      requires kind == D().owners.told.value.kind && generation == D().owners.told.value.generation
      requires D().owners.told.value.news ==> D().owners.told.value.shown
      modifies this`log
      ensures Valid() && !D().closed && OnlyOwners(old(D()), D()) && Decisions(log) == old(Decisions(log))
      ensures D().owners == Owners(old(D().owners.wanted), old(D().owners.asked), None)
      ensures now == Seen(D(), kind) && if kind.Presence? then D().typing == old(D().typing) else D().presence == old(D().presence)
    {
      hide Orderly, Truthful, Digested, Decisions, Allowed, Step, TrueTo;
      OwnedStep(D(), kind, generation);
      assert TrueTo(Owned(kind, generation)) by { OwnedIsTrue(kind, generation); }
      Note(Owned(kind, generation));
      return Max(seen, generation);
    }

    lemma OwnedIsTrue(kind: Kind, generation: int)
      ensures TrueTo(Owned(kind, generation))
    {
    }

    /** Writes the frame of the owner's answer. */
    method Show(resets: bool) returns (reset: bool, stop: Option<Stop>)
      requires Valid() && !D().closed && D().owners.told.Some?
      requires D().owners.told.value.news && !D().owners.told.value.shown && resets == D().owners.told.value.resets
      modifies this`at, this`cursor, this`log
      ensures Valid() && old(at) <= at && SamePlace(old(D()), D()) && Decisions(log) == old(Decisions(log))
      ensures reset == (stop.None? && resets) && (D().closed <==> reset)
      ensures OnlyOwners(old(D()), D()) && D().presence == old(D().presence) && D().typing == old(D().typing)
      ensures D().owners == if stop.None? then Shown(old(D().owners)) else old(D().owners)
      ensures stop.Some? ==> Blamed(stop.value)
    {
      hide Orderly, Truthful, Digested, Decisions, Allowed, Step;
      reset := false;
      var a := Ask();
      if a.ended {
        return false, Some(Cancelled);
      }
      FrameStep(D(), resets);
      stop := SendFrame(Frame(resets));
      reset := stop.None? && resets;
    }

    /** wait: blocks for news above `after`, sending heartbeats meanwhile, and
        comes back with the old levels when what is due has its deadline. */
    method Wait(after: int, presence: int, typing: int, observed: nat, recountDue: bool, refreshDue: bool)
      returns (level: int, stop: Option<Stop>)
      requires Valid() && progress == D().cursor
      requires Allowed(D(), Waiting(after, presence, typing, observed, recountDue, refreshDue, heartbeats))
      modifies this`at, this`cursor, this`log
      ensures Valid() && old(at) <= at && !D().closed
      ensures SameReads(old(D()).(seen := D().seen, duties := D().duties), D()) && D().cursor == old(D().cursor)
      ensures Decisions(log) == old(Decisions(log))
      ensures stop.None? ==> old(at) < at && level == D().seen && D().duties.due == {}
      ensures stop.Some? ==> Blamed(stop.value)
    {
      hide Orderly, Truthful, Digested, Decisions, Allowed, Step, Rests, Rested, SameReads;
      level, stop := after, None;
      ghost var began := D();
      var w := Waiting(after, presence, typing, observed, recountDue, refreshDue, heartbeats);
      RestsFirst(began, w);
      while true
        invariant Valid() && old(at) <= at && Rests(began, w, D()) && D().cursor == began.cursor
        invariant Decisions(log) == old(Decisions(log))
        decreases |script| - at
      {
        Pause(began, w);
        ghost var waiting := D();
        RestedFacts(began, w, waiting);
        var k := at;
        var a := Ask();
        if a.ended {
          RestedEnds(began, w, waiting, D());
          return after, Some(Cancelled);
        }
        if a.due && (recountDue || refreshDue) && (!heartbeats || a.yes) {
          Expire();
          RestedEnds(began, w, waiting, D());
          return after, None;
        }
        if !a.due || !heartbeats {
          Wake(a.level);
          RestedEnds(began, w, waiting, D());
          return a.level, None;
        }
        stop := BeatDue(k);
        BeatenEnds(waiting, D());
        RestedEnds(began, w, waiting, D());
        if stop.Some? {
          return;
        }
        WaitAgain(began, w, waiting, D());
      }
    }

    /** The stream blocks. */
    method Pause(ghost began: Digest, w: Entry)
      requires Valid() && Rests(began, w, D()) && w.Waiting? && TrueTo(w)
      modifies this`log
      ensures Valid() && Decisions(log) == old(Decisions(log)) && Rested(began, w, D())
    {
      hide Orderly, Truthful, Digested, Decisions, Allowed, Step, TrueTo;
      WaitStep(began, w, D());
      Note(w);
    }

    /** The wait ends with this level. */
    method Wake(level: int)
      requires Valid() && D().waiting && !D().closed && D().duties.due == {}
      modifies this`log
      ensures Valid() && Decisions(log) == old(Decisions(log))
      ensures SameReads(old(D()).(seen := D().seen, duties := D().duties), D()) && !D().closed && D().cursor == old(D().cursor)
      ensures D().duties.due == {} && D().seen == level
    {
      hide Orderly, Truthful, Digested, Decisions, Allowed, Step;
      WokeStep(D(), level);
      Note(Woke(level));
    }

    /** The wait ends at its deadline. */
    method Expire()
      requires Valid() && D().waiting && !D().closed && D().duties.due == {} && D().duties.early != {}
      modifies this`log
      ensures Valid() && Decisions(log) == old(Decisions(log))
      ensures SameReads(old(D()).(seen := D().seen, duties := D().duties), D()) && !D().closed && D().cursor == old(D().cursor)
      ensures D().duties.due == {} && D().seen == old(D().seen)
    {
      hide Orderly, Truthful, Digested, Decisions, Allowed, Step;
      ExpiredStep(D());
      Note(Expired);
    }

    /** Reads on: a cursor that expired or a batch with a gap is answered by a
        reset, before anything of the batch is delivered. */
    method ReadEvents(pos: int, known: int) returns (events: seq<Event>, reset: bool, stop: Option<Stop>)
      requires Valid() && !D().closed && pos == D().cursor == D().upTo && known == D().seen && D().duties.due == {}
      modifies this`at, this`cursor, this`log
      ensures Valid() && old(at) <= at && D().cursor == old(D().cursor) && D().observed == old(D().observed)
      ensures Decisions(log) == old(Decisions(log)) && (stop.Some? || reset ==> D().upTo == old(D().upTo))
      ensures stop.None? && !reset ==>
                && at == old(at) + 1 && Continues(D().cursor, events) && events == Answered(old(at)).rows
                && D() == Step(old(D()), Read(known, |events|, |events| == batch))
      ensures !Broken(old(at), pos) && !Answered(old(at)).fails ==> stop.None? && !reset
      ensures Broken(old(at), pos) ==> stop.Some? || reset
      ensures !Broken(old(at), pos) ==> !reset
      ensures D().channel == old(D().channel) && D().owners == old(D().owners)
      ensures D().closed <==> reset
      ensures reset ==> stop.None?
      ensures stop.Some? ==> Blamed(stop.value)
    {
      hide Orderly, Truthful, Digested, Decisions;
      events, reset, stop := [], false, None;
      var k := at;
      var a := Ask();
      var whole := a.expired;
      if !a.expired && !a.fails {
        whole := Contiguous(pos, a.rows);
      }
      if a.expired || (!a.fails && !whole) {
        stop := GiveUpOn(pos, k);
        reset := stop.None?;
        return;
      }
      if a.fails {
        return [], false, Some(Failure);
      }
      events := a.rows;
      Note(Read(known, |events|, |events| == batch));
    }

    /** The k-th answer has lost what comes after the cursor: writes a reset,
        after a fresh check. */
    method GiveUpOn(pos: int, k: nat) returns (stop: Option<Stop>)
      requires Valid() && !D().closed && pos == D().cursor && Broken(k, pos)
      modifies this`at, this`cursor, this`log
      ensures Valid() && old(at) <= at && D().cursor == old(D().cursor) && D().observed == old(D().observed)
      ensures Decisions(log) == old(Decisions(log)) && D().upTo == old(D().upTo)
      ensures D().channel == old(D().channel) && D().owners == old(D().owners)
      ensures D().closed <==> stop.None?
      ensures stop.Some? ==> Blamed(stop.value)
    {
      hide Orderly, Truthful, Digested, Decisions;
      var b := Ask();
      if b.ended {
        return Some(Cancelled);
      }
      stop := CheckMember();
      if stop.None? {
        stop := Send(Reset(pos, k));
      }
    }

    /** The k-th answer has lost what comes after the cursor. */
    ghost predicate Broken(k: nat, pos: int) {
      Answered(k).expired || (!Answered(k).fails && !Continues(pos, Answered(k).rows))
    }

    /** How many triggers are asked about an event before it is decided. */
    ghost function Triggers(event: Event): nat {
      (if Here(event) then 1 else 0) + (if sub.sidebar && Own(event) then 1 else 0)
    }

    predicate Own(event: Event) {
      event.organization == sub.organization
    }

    /** The event may call for the channel's whole state. */
    predicate Here(event: Event) {
      sub.channelState && Own(event) && event.channel == sub.channel
    }

    /** The event calls for it, asked at the k-th answer. */
    ghost predicate Calling(event: Event, k: nat) {
      Here(event) && Answered(k).yes
    }

    /** Asks whether an event calls for the channel's whole state again. */
    method Trigger(event: Event, dirty: bool) returns (now: bool)
      requires Valid() && !D().closed && event.seqNo == D().cursor + 1 <= D().upTo && (D().channel.owed ==> dirty)
      modifies this`at, this`log
      ensures Valid() && at == Min(old(at) + if Here(event) then 1 else 0, |script|)
      ensures now == (dirty || Calling(event, old(at))) && Decisions(log) == old(Decisions(log))
      ensures SameReads(old(D()).(channel := D().channel), D()) && D().cursor == old(D().cursor) && !D().closed
      ensures D().channel.calls == old(D().channel.calls) + if Calling(event, old(at)) then {Some(event.seqNo)} else {}
      ensures D().channel.owed ==> now
    {
      hide Orderly, Truthful, Digested, Decisions;
      now := dirty;
      if Here(event) {
        var a := Ask();
        if a.yes {
          Note(Call(Some(event.seqNo)));
          now := true;
        }
      }
    }

    /** Notes an event's triggers, and delivers or skips it. */
    method DeliverOrSkip(event: Event, channel: bool, sidebar: bool)
      returns (channelDirty: bool, sidebarDirty: bool, stop: Option<Stop>, ghost turn: nat)
      requires Valid() && !D().closed && event.seqNo == D().cursor + 1 <= D().upTo && (D().channel.owed ==> channel)
      modifies this`at, this`cursor, this`log
      ensures Valid() && old(at) <= turn <= at && !D().closed
      ensures SameReads(old(D()).(channel := D().channel), D())
      ensures channelDirty == (channel || Calling(event, old(at))) && (D().channel.owed ==> channelDirty)
      ensures D().channel.calls == old(D().channel.calls) + if Calling(event, old(at)) then {Some(event.seqNo)} else {}
      ensures sidebarDirty == (sidebar || (sub.sidebar && Own(event) && Answered(if Here(event) then old(at) + 1 else old(at)).yes))
      ensures turn == Min(old(at) + Triggers(event), |script|) && at == Min(Ended(event, turn), |script|)
      ensures stop.Some? ==> Fated(event, turn) == Stops(stop.value) && Blamed(stop.value)
      ensures stop.Some? ==> D().cursor == old(D().cursor) && Decisions(log) == old(Decisions(log))
      ensures stop.None? ==> turn < at && !Fated(event, turn).Stops? && D().cursor == event.seqNo
      ensures stop.None? ==> Decisions(log) == old(Decisions(log)) + [Decision(event.seqNo, Reason(event, turn))]
    {
      hide Orderly, Truthful, Digested, Decisions, Fated, Ended;
      sidebarDirty := sidebar;
      channelDirty := Trigger(event, channel);
      if sub.sidebar && Own(event) {
        var a := Ask();
        sidebarDirty := sidebarDirty || a.yes;
      }
      var sent, why;
      turn := at;
      sent, why, stop := Deliver(event);
      if stop.None? && !sent {
        Note(Skipped(event.seqNo, why));
      }
    }

    /** Why an event that does not stop the stream is not sent, if it is not. */
    ghost function Reason(event: Event, k: nat): Option<Why> {
      match Fated(event, k)
      case Skips(why) => Some(why)
      case _ => None
    }

    /** The decision each turn comes to. */
    ghost function Outcome(turns: seq<Turn>): seq<Decision> {
      seq(|turns|, i requires 0 <= i < |turns| => Decision(turns[i].event.seqNo, Reason(turns[i].event, turns[i].at)))
    }

    /** The events that call for the channel's whole state. */
    ghost function Called(turns: seq<Turn>): set<Option<int>> {
      set t | t in turns && Calling(t.event, t.begin) :: Some(t.event.seqNo)
    }

    /** The position after the turn. */
    ghost function Over(t: Turn): nat {
      Min(Ended(t.event, t.at), |script|)
    }

    /** The position of the first read. */
    ghost function FirstRead(): nat {
      if sub.sidebar && limited then 1 else 0
    }

    /** The position of a batch's first turn: after its read, and at first
        after the channel's state. */
    ghost function Opening(read: nat): nat {
      if read == FirstRead() then Refreshed(read + 1, sub.channelState) else read + 1
    }

    /** A turn's event is its row of its read, and its own triggers come
        before what decides it; the first row's turn comes right after the
        read. */
    ghost predicate Placed(t: Turn) {
      && t.read < t.begin <= t.at && t.at == Min(t.begin + Triggers(t.event), |script|)
      && t.place < |Answered(t.read).rows| && t.event == Answered(t.read).rows[t.place]
      && (t.place == 0 ==> t.begin == Min(Opening(t.read), |script|))
    }

    /** The turn of the batch's last row. */
    ghost predicate Whole(t: Turn) {
      t.place + 1 == |Answered(t.read).rows|
    }

    /** A turn begins where the one before it ended, with the next row; or it
        opens a later read, the one before it done. */
    ghost predicate Follows(before: Turn, t: Turn) {
      if t.place == 0 then Whole(before) && Over(before) <= t.read
      else t.read == before.read && t.place == before.place + 1 && t.begin == Over(before)
    }

    ghost predicate Comes(turns: seq<Turn>, t: Turn) {
      if turns == [] then t.place == 0 else Follows(turns[|turns| - 1], t)
    }

    ghost predicate TurnOk(t: Turn, from: nat, upTo: nat) {
      Placed(t) && !Fated(t.event, t.at).Stops? && from <= t.read && t.at < Over(t) <= upTo
    }

    /** No turn stopped the stream, and they were taken one after the other,
        between two answers, leaving out no row that was read. */
    ghost predicate InTurn(turns: seq<Turn>, from: nat, upTo: nat) {
      && (forall t :: t in turns ==> TurnOk(t, from, upTo))
      && (turns != [] ==> turns[0].place == 0)
      && (forall i, j :: 0 <= i && j == i + 1 < |turns| ==> Follows(turns[i], turns[j]))
    }

    /** The last batch is done. */
    ghost predicate Done(turns: seq<Turn>) {
      turns != [] ==> Whole(turns[|turns| - 1])
    }

    lemma TurnsJoin(a: seq<Turn>, b: seq<Turn>, from: nat, mid: nat, upTo: nat)
      requires InTurn(a, from, mid) && InTurn(b, mid, upTo) && Done(a) && from <= mid <= upTo
      ensures InTurn(a + b, from, upTo) && (Done(b) ==> Done(a + b))
      ensures Outcome(a + b) == Outcome(a) + Outcome(b) && Called(a + b) == Called(a) + Called(b)
    {
      hide Fated, Reason, Ended, Placed, Whole, Calling;
      var both := a + b;
      forall t | t in both ensures TurnOk(t, from, upTo) {
        assert TurnOk(t, from, mid) || TurnOk(t, mid, upTo);
      }
      forall i, j | 0 <= i && j == i + 1 < |both| ensures Follows(both[i], both[j]) {
        if j == |a| {
          assert TurnOk(both[i], from, mid) && both[j] == b[0] && TurnOk(b[0], mid, upTo);
        } else {
          assert if j < |a| then Follows(a[i], a[j]) else Follows(b[i - |a|], b[j - |a|]);
        }
      }
    }

    /** One more turn. */
    lemma TurnsNext(turns: seq<Turn>, t: Turn, from: nat, mid: nat)
      requires InTurn(turns, from, mid) && Comes(turns, t) && TurnOk(t, from, Over(t)) && mid <= Over(t)
      ensures InTurn(turns + [t], from, Over(t))
      ensures Outcome(turns + [t]) == Outcome(turns) + [Decision(t.event.seqNo, Reason(t.event, t.at))]
    {
      hide Fated, Reason, Ended, Placed, Whole, Follows;
    }

    lemma TurnsLast(turns: seq<Turn>, from: nat, mid: nat, upTo: nat)
      requires InTurn(turns, from, mid) && mid <= upTo
      ensures InTurn(turns, from, upTo)
    {
      hide Fated, Placed, Ended, Follows;
    }

    /** Later turns are decided by later answers. */
    lemma {:induction false} TurnsRise(turns: seq<Turn>, from: nat, upTo: nat, i: nat, j: nat)
      requires InTurn(turns, from, upTo) && i < j < |turns|
      ensures Over(turns[i]) <= turns[j].begin <= turns[j].at
    {
      hide Fated, Ended;
      assert Follows(turns[j - 1], turns[j]) && TurnOk(turns[j], from, upTo) && TurnOk(turns[j - 1], from, upTo);
      if i < j - 1 {
        TurnsRise(turns, from, upTo, i, j - 1);
      }
    }

    /** The event at which the run stopped: the next one, read but undecided,
        in its own turn after the others, and the answers there say so. */
    ghost predicate StoppedAt(failed: Turn, stop: Stop, turns: seq<Turn>, next: int) {
      && failed.event.seqNo == next && Placed(failed) && Comes(turns, failed)
      && Fated(failed.event, failed.at) == Stops(stop)
    }

    lemma Later(failed: Turn, stop: Stop, turns: seq<Turn>, more: seq<Turn>, mid: nat, next: int)
      requires InTurn(turns, 0, mid) && Done(turns) && StoppedAt(failed, stop, more, next) && mid <= failed.read
      ensures StoppedAt(failed, stop, turns + more, next)
    {
      hide Fated, Placed, Ended, Whole;
      if more == [] && turns != [] {
        assert TurnOk(turns[|turns| - 1], 0, mid);
      }
    }

    ghost function Failing(failed: Option<Turn>): seq<Turn> {
      if failed.Some? then [failed.value] else []
    }

    /** Delivers or skips a batch, one event after the other, each in its own
        turn. It stops before the first event that can be neither delivered
        nor skipped. */
    method Batch(events: seq<Event>, from: int, channel: bool, sidebar: bool, ghost read: nat)
      returns (pos: int, channelDirty: bool, sidebarDirty: bool, stop: Option<Stop>,
               ghost turns: seq<Turn>, ghost failed: Option<Turn>)
      requires Valid() && !D().closed && from == D().cursor && Continues(D().cursor, events) && D().upTo == D().cursor + |events|
      requires D().channel.owed ==> channel
      requires events != [] ==> read < at == Min(Opening(read), |script|) && events == Answered(read).rows
      modifies this`at, this`cursor, this`log
      ensures Valid() && old(at) <= at && !D().closed
      ensures SameReads(old(D()).(channel := D().channel), D()) && old(D().cursor) <= D().cursor <= D().upTo
      ensures pos == D().cursor && (stop.None? <==> pos == D().upTo) && (stop.Some? <==> failed.Some?)
      ensures (sidebar ==> sidebarDirty) && (D().channel.owed ==> channelDirty)
      ensures D().channel.calls == old(D().channel.calls) + Called(turns + Failing(failed))
      ensures Decisions(log) == old(Decisions(log)) + Outcome(turns) && InTurn(turns, read, at)
      ensures failed.None? ==> Done(turns)
      ensures stop.Some? ==> Blamed(stop.value)
      ensures failed.Some? ==> StoppedAt(failed.value, stop.value, turns, pos + 1) && failed.value.read == read
    {
      hide Orderly, Truthful, Digested, Decisions, Fated, Ended, InTurn, Outcome, Called, Calling, Placed, Comes, At, Done;
      NoTurns(read, at);
      pos, channelDirty, sidebarDirty, stop := from, channel, sidebar, None;
      var i := 0;
      turns, failed := [], None;
      while i < |events|
        invariant i <= |events| && Valid() && old(at) <= at && !D().closed
        invariant SameReads(old(D()).(channel := D().channel), D()) && pos == D().cursor == from + i
        invariant (sidebar ==> sidebarDirty) && (D().channel.owed ==> channelDirty) && stop.None? && failed.None?
        invariant D().channel.calls == old(D().channel.calls) + Called(turns)
        invariant Decisions(log) == old(Decisions(log)) + Outcome(turns) && InTurn(turns, read, at)
        invariant |turns| == i && (events != [] ==> At(turns, read, at)) && (i == |events| ==> Done(turns))
      {
        ghost var begin, turn := at, at;
        channelDirty, sidebarDirty, stop, turn := DeliverOrSkip(events[i], channelDirty, sidebarDirty);
        ghost var mine := Turn(events[i], read, i, begin, turn);
        Takes(turns, mine, begin);
        CalledNext(turns, mine);
        if stop.Some? {
          failed := Some(mine);
          TurnsLast(turns, read, begin, at);
          return;
        }
        TurnsNext(turns, mine, read, begin);
        turns := turns + [mine];
        pos := events[i].seqNo;
        i := i + 1;
      }
      NoneFailed(turns);
    }

    lemma CalledJoin(turns: seq<Turn>, more: seq<Turn>, failed: Option<Turn>)
      ensures Called(turns + more + Failing(failed)) == Called(turns) + Called(more + Failing(failed))
      ensures failed.None? ==> turns + more + Failing(failed) == turns + more
    {
      hide Calling;
    }

    /** The batch read at `read` has come to the k-th answer. */
    ghost predicate At(turns: seq<Turn>, read: nat, k: nat) {
      if turns == [] then k == Min(Opening(read), |script|)
      else turns[|turns| - 1].read == read && turns[|turns| - 1].place == |turns| - 1 && k == Over(turns[|turns| - 1])
    }

    /** The next row's turn is in its place. */
    lemma Takes(turns: seq<Turn>, t: Turn, k: nat)
      requires At(turns, t.read, k) && t.read < t.begin == k && t.at == Min(k + Triggers(t.event), |script|)
      requires t.place == |turns| < |Answered(t.read).rows| && t.event == Answered(t.read).rows[t.place] && k <= |script|
      ensures Placed(t) && Comes(turns, t) && At(turns + [t], t.read, Over(t))
      ensures t.place + 1 == |Answered(t.read).rows| ==> Done(turns + [t])
    {
      hide Ended;
    }

    lemma CalledNext(turns: seq<Turn>, t: Turn)
      ensures Called(turns + [t]) == Called(turns) + if Calling(t.event, t.begin) then {Some(t.event.seqNo)} else {}
    {
      hide Calling;
    }

    lemma NoneFailed(turns: seq<Turn>)
      ensures turns + Failing(None) == turns
    {
    }

    /** Pending progress is written before a wait, or when a heartbeat is due. */
    method CheckpointIfDue(pos: int, draining: bool) returns (stop: Option<Stop>)
      requires Valid() && !D().closed && pos == D().cursor && D().duties.due == {}
      modifies this`at, this`cursor, this`log
      ensures Valid() && old(at) <= at && !D().closed
      ensures SameReads(old(D()).(duties := D().duties), D()) && D().cursor == old(D().cursor)
      ensures stop.None? ==> D().duties == old(D().duties)
      ensures Decisions(log) == old(Decisions(log))
      ensures stop.None? && !heartbeats && !draining ==> D().lastId == D().cursor
      ensures stop.Some? ==> Blamed(stop.value)
    {
      hide Orderly, Truthful, Digested, Decisions, Allowed, Step;
      stop := None;
      IdBelowCursor();
      if pos > cursor {
        var due := !draining;
        if heartbeats {
          var k := at;
          var a := Ask();
          due := a.due;
          if due {
            CheckpointStep(D(), k, pos);
            Note(Due(Beat, k));
          }
        }
        if due {
          stop := Progress(pos);
        }
      }
    }

    /** Writes the pending progress, after a fresh check. */
    method Progress(pos: int) returns (stop: Option<Stop>)
      requires Valid() && !D().closed && cursor < pos == D().cursor
      modifies this`at, this`cursor, this`log
      ensures Valid() && old(at) <= at && !D().closed
      ensures SameReads(old(D()).(duties := D().duties), D()) && D().cursor == old(D().cursor)
      ensures stop.None? ==> D().duties == Duties(old(D().duties.due) - {Beat}, old(D().duties.early)) && D().lastId == D().cursor
      ensures Decisions(log) == old(Decisions(log))
      ensures stop.Some? ==> Blamed(stop.value)
    {
      hide Orderly, Truthful, Digested, Decisions, Allowed, Step;
      stop := CheckMember();
      if stop.None? {
        CheckpointStep(D(), 0, pos);
        stop := Send(Entry.Checkpoint(pos));
      }
    }

    lemma IdBelowCursor()
      requires Valid()
      ensures cursor <= D().cursor
    {
      DecidedOnce(start, log);
    }

    /** The first read of all comes first, and only there the channel's state
        comes before the batch. */
    ghost predicate Connected(l: Locals)
      reads this
    {
      if l.connected then FirstRead() < at else at == FirstRead() && l.channel == sub.channelState
    }

    lemma NoTurns(from: nat, upTo: nat)
      ensures InTurn([], from, upTo) && Outcome([]) == [] && Called([] + Failing(None)) == Called([]) == {} && Done([])
      ensures At([], from, Min(Opening(from), |script|))
    {
    }

    /** Reads if there may be news; the first time, the channel's state follows. */
    method Open(l: Locals) returns (m: Locals, events: seq<Event>, ending: Option<Ending>)
      requires Valid() && Agrees(l, D()) && Connected(l)
      modifies this`at, this`cursor, this`log
      ensures Valid() && old(at) <= at && m.pos == D().cursor == old(D().cursor)
      ensures D().closed <==> ending == Some(ResetSent)
      ensures ending != Some(Refused)
      ensures D().observed == old(D().observed) && D().channel.calls == old(D().channel.calls)
      ensures Decisions(log) == old(Decisions(log))
      ensures ending.Some? ==> D().cursor == D().upTo || !l.connected
      ensures D().owners.wanted == old(D().owners.wanted) && (ending.Some? && ending.value.Stopped? ==> Blamed(ending.value.stop))
      ensures ending.None? ==>
                && Opened(m, D(), |events|) && m.connected == l.connected && Continues(D().cursor, events)
                && (events != [] ==> old(at) < at == Min(Opening(old(at)), |script|) && events == Answered(old(at)).rows)
                && (old(at) < at || !m.draining)
    {
      hide Orderly, Truthful, Digested, Decisions, Refreshed;
      m, events, ending := l, [], None;
      var stop;
      if l.draining || l.seen > l.covered {
        var reset;
        events, reset, stop := ReadEvents(l.pos, l.seen);
        if stop.Some? || reset {
          ending := Some(if reset then ResetSent else Stopped(stop.value));
          return;
        }
        m := m.(covered := l.seen, draining := |events| == batch);
      }
      if !l.connected {
        var channel;
        channel, stop := RefreshChannel(m.channel);
        if stop.Some? {
          ending := Some(Stopped(stop.value));
          return;
        }
        m := m.(channel := channel);
      }
    }

    /** The first half of a turn: reads if there may be news, delivers the
        batch, and writes a checkpoint if one is due. */
    method Take(l: Locals) returns (m: Locals, ending: Option<Ending>, ghost turns: seq<Turn>, ghost failed: Option<Turn>)
      requires Valid() && Agrees(l, D()) && Connected(l)
      modifies this`at, this`cursor, this`log, this`progress
      ensures Valid() && old(at) <= at && m.pos == D().cursor
      ensures D().closed <==> ending == Some(ResetSent)
      ensures ending != Some(Refused)
      ensures D().observed == old(D().observed) && D().owners.wanted == old(D().owners.wanted)
      ensures ending.Some? && ending.value.Stopped? ==> Blamed(ending.value.stop)
      ensures Decisions(log) == old(Decisions(log)) + Outcome(turns) && InTurn(turns, old(at), at)
      ensures D().channel.calls == old(D().channel.calls) + Called(turns + Failing(failed))
      ensures failed.None? ==> Done(turns) && (D().cursor == D().upTo || (turns == [] && !l.connected && ending.Some?))
      ensures failed.Some? ==>
                && ending.Some? && ending.value.Stopped? && old(at) <= failed.value.read
                && StoppedAt(failed.value, ending.value.stop, turns, m.pos + 1)
      ensures ending.None? ==>
                && Agrees(m, D()) && progress == m.pos && (!m.draining ==> m.seen <= m.covered)
                && (old(at) < at || !m.draining) && m.connected == l.connected
                && (!heartbeats && !m.draining ==> D().lastId == D().cursor)
    {
      hide Orderly, Truthful, Digested, Decisions, InTurn, StoppedAt, Called, Outcome, Done, Agrees, Connected;
      var events, stop;
      ghost var read := at;
      NoTurns(read, at);
      m, events, ending := Open(l);
      turns, failed := [], None;
      if ending.Some? {
        NoTurns(read, at);
        return;
      }
      var pos, channel, dirty;
      ghost var was, atRead := m, D();
      pos, channel, dirty, stop, turns, failed := Batch(events, m.pos, m.channel, m.sidebar.dirty, read);
      ghost var before, mid := at, D();
      m := m.(pos := pos, channel := channel, sidebar := m.sidebar.(dirty := dirty));
      if stop.Some? {
        return m, Some(Stopped(stop.value)), turns, failed;
      }
      progress := pos;
      stop := CheckpointIfDue(pos, m.draining);
      TurnsLast(turns, read, before, at);
      if stop.Some? {
        return m, Some(Stopped(stop.value)), turns, failed;
      }
      m := m.(covered := Max(pos, m.covered));
      Batched(was, atRead, |events|, mid, m, D());
    }

    /** The second half: current state, and unless there is more to read, the wait. */
    method Settle(l: Locals) returns (m: Locals, ending: Option<Ending>)
      requires Valid() && Agrees(l, D()) && progress == l.pos && (!l.draining ==> l.seen <= l.covered)
      requires (!watches ==> D().observed == 0) && D().owners.wanted == Wanted()
      requires !heartbeats && !l.draining ==> D().lastId == D().cursor
      modifies this`at, this`cursor, this`log
      ensures Valid() && old(at) <= at && m.pos == D().cursor
      ensures D().closed <==> ending == Some(ResetSent)
      ensures ending != Some(Refused)
      ensures (!watches ==> D().observed == 0) && D().owners.wanted == Wanted()
      ensures ending.Some? && ending.value.Stopped? ==> Blamed(ending.value.stop)
      ensures Decisions(log) == old(Decisions(log)) && D().upTo == old(D().upTo) && D().cursor == old(D().cursor)
      ensures D().channel.calls == old(D().channel.calls)
      ensures ending.None? ==> Agrees(m, D()) && m.connected && (l.draining || old(at) < at)
    {
      hide Orderly, Truthful, Digested, Decisions;
      m, ending := l, None;
      var presence, typing, sidebar, channel, reset, stop := CurrentState(l.presence, l.typing, l.sidebar, l.channel, !l.connected);
      m := m.(presence := presence, typing := typing, sidebar := sidebar, channel := channel, connected := true);
      if stop.Some? || reset {
        return m, Some(if reset then ResetSent else Stopped(stop.value));
      }
      if l.draining {
        stop := HeartbeatIfDue();
      } else {
        var seen := Max(l.pos, l.seen);
        seen, stop := Wait(seen, presence, typing, sidebar.observed, sidebar.dirty, channel);
        m := m.(seen := seen);
      }
      if stop.Some? {
        return m, Some(Stopped(stop.value));
      }
    }

    /** A stream that wants the channel's state is owed it on connecting. */
    ghost function Connecting(): set<Option<int>> {
      if sub.channelState then {None} else {}
    }

    lemma Unstarted()
      requires log == []
      ensures D() == Start(start) && Decisions(log) == []
    {
    }

    /** What Run does before its loop: the channel's state is owed from the
        start, and with a limit on recounts the membership is checked first. */
    method Connect() returns (l: Locals, stop: Option<Stop>)
      requires Valid() && log == [] && at == 0
      modifies this
      ensures Valid() && D().cursor == D().upTo == start && !D().closed && D().observed == 0
      ensures Decisions(log) == [] && D().channel.calls == Connecting()
      ensures l.pos == start && !l.connected
      ensures D().owners.wanted == Wanted() && (stop.Some? ==> Blamed(stop.value))
      ensures stop.None? ==> Agrees(l, D()) && Connected(l)
    {
      hide Orderly, Truthful;
      stop := None;
      l := Locals(start, 0, 0, true, false, 0, 0, sub.channelState, Sidebar(sub.sidebar, 0, 0));
      if sub.channelState {
        Note(Call(None));
      }
      WantKinds();
      if sub.sidebar && limited {
        stop := CheckMember();
      }
    }

    /** Notes the kinds that the stream wants and that have an owner. */
    method WantKinds()
      requires Valid() && !D().closed && D().owners.wanted == {}
      modifies this`log
      ensures Valid() && Decisions(log) == old(Decisions(log))
      ensures D() == old(D()).(checked := D().checked, waiting := D().waiting, owners := Owners(Wanted(), old(D().owners.asked), old(D().owners.told)))
    {
      hide Orderly, Truthful, Digested, Decisions;
      if sub.presence && owned(Presence) {
        Note(Wants(Presence));
      }
      if sub.typing && owned(Typing) {
        Note(Wants(Typing));
      }
    }

    /** Run: returns the last sequence delivered or skipped and why it
        stopped. Its log is orderly; DeliveryLog says what that means. What it
        decides about each event is what the answers in that event's own turn
        say: sent, or skipped for that reason; each turn begins where the one
        before it ended. If it stops at an event, that is the next one,
        undecided, and its own turn says stop; otherwise all it read is
        decided, or it stopped connecting, before the first. What called for
        the channel's state is the connection and the events whose turn says so. */
    method Run() returns (final: int, ending: Ending, ghost turns: seq<Turn>, ghost failed: Option<Turn>)
      requires Valid() && log == [] && at == 0
      modifies this
      ensures Valid() && final == D().cursor
      ensures ending.Refused? <==> start < 0
      ensures start < 0 ==> log == [] && final == start
      ensures ending.ResetSent? <==> D().closed
      ensures ending.Stopped? ==> Blamed(ending.stop)
      ensures D().owners.wanted == if start < 0 then {} else Wanted()
      ensures Decisions(log) == Outcome(turns) && InTurn(turns, 0, at)
      ensures failed.Some? ==> ending.Stopped? && StoppedAt(failed.value, ending.stop, turns, final + 1)
      ensures failed.None? ==> Done(turns) && (final == D().upTo || turns == [])
      ensures D().channel.calls == (if start < 0 then {} else Connecting()) + Called(turns + Failing(failed))
    {
      hide Orderly, Truthful, Digested, Decisions, InTurn, StoppedAt, Called, Outcome, Done, Agrees;
      turns, failed := [], None;
      Unstarted();
      NoTurns(0, at);
      if start < 0 {
        return start, Refused, turns, failed;
      }
      var l, stop := Connect();
      NoTurns(0, at);
      if stop.Some? {
        return start, Stopped(stop.value), turns, failed;
      }
      while true
        invariant Valid() && Agrees(l, D()) && (!watches ==> D().observed == 0) && D().owners.wanted == Wanted()
        invariant Decisions(log) == Outcome(turns) && InTurn(turns, 0, at) && (l.connected || turns == [])
        invariant Connected(l) && Done(turns) && D().channel.calls == Connecting() + Called(turns)
        decreases |script| - at
      {
        var over;
        ghost var more, before := [], at;
        l, over, more, failed := Take(l);
        TurnsJoin(turns, more, 0, before, at);
        if failed.Some? {
          Later(failed.value, over.value.stop, turns, more, before, l.pos + 1);
        }
        CalledJoin(turns, more, failed);
        turns := turns + more;
        if over.Some? {
          return l.pos, over.value, turns, failed;
        }
        before := at;
        l, over := Settle(l);
        TurnsLast(turns, 0, before, at);
        if over.Some? {
          NoneFailed(turns);
          return l.pos, over.value, turns, None;
        }
      }
    }

    /** A heartbeat that the k-th answer says is due. */
    method BeatDue(k: nat) returns (stop: Option<Stop>)
      requires Valid() && !D().closed && progress == D().cursor && D().duties.due == {} && k < |script| && script[k].due
      modifies this`at, this`cursor, this`log
      ensures Valid() && old(at) <= at && !D().closed
      ensures SameReads(old(D()).(duties := D().duties), D()) && D().cursor == old(D().cursor)
      ensures stop.None? ==> D().duties == old(D().duties)
      ensures stop.Some? ==> Blamed(stop.value)
      ensures Decisions(log) == old(Decisions(log))
    {
      hide Orderly, Truthful, Digested, Decisions, Allowed, Step;
      CheckpointStep(D(), k, progress);
      Note(Due(Beat, k));
      stop := Heartbeat();
    }

    /** While it drains a backlog the loop still sends a heartbeat that is due. */
    method HeartbeatIfDue() returns (stop: Option<Stop>)
      requires Valid() && !D().closed && progress == D().cursor && D().duties.due == {}
      modifies this`at, this`cursor, this`log
      ensures Valid() && old(at) <= at && !D().closed
      ensures SameReads(old(D()).(duties := D().duties), D()) && D().cursor == old(D().cursor)
      ensures stop.None? ==> D().duties == old(D().duties)
      ensures stop.Some? ==> Blamed(stop.value)
      ensures Decisions(log) == old(Decisions(log))
    {
      hide Orderly, Truthful, Digested, Decisions;
      stop := None;
      if heartbeats {
        var k := at;
        var a := Ask();
        if a.due {
          stop := BeatDue(k);
        }
      }
    }

    /** After every batch: ephemeral state, the recount and the channel's state. */
    method CurrentState(presence: int, typing: int, sidebar: Sidebar, channel: bool, connect: bool)
      returns (presenceNow: int, typingNow: int, sidebarNow: Sidebar, channelNow: bool, reset: bool, stop: Option<Stop>)
      requires Valid() && !D().closed && presence == D().presence && typing == D().typing && Idle(!connect, D()) && D().owners.wanted == Wanted()
      requires sidebar.observed == D().observed && sidebar.covered == D().covered && (D().channel.owed ==> channel)
      modifies this`at, this`cursor, this`log
      ensures Valid() && old(at) <= at && SamePlace(old(D()), D())
      ensures LastRead(old(D()).(channel := D().channel), D()) && Decisions(log) == old(Decisions(log))
      ensures D().channel.calls == old(D().channel.calls) && D().owners.wanted == Wanted()
      ensures D().closed <==> reset
      ensures reset ==> stop.None?
      ensures stop.Some? ==> Blamed(stop.value)
      ensures stop.None? && !reset ==>
                && presenceNow == D().presence && typingNow == D().typing
                && sidebarNow.observed == D().observed && sidebarNow.covered == D().covered
                && (D().observed > D().covered ==> sidebarNow.dirty || !watches) && (D().channel.owed ==> channelNow)
      ensures stop.None? && !reset ==>
                && Idle(true, D())
                && (sidebarNow.dirty ==> Duty.Recount in D().duties.early) && (channelNow ==> Refresh in D().duties.early)
      ensures !watches ==> D().observed == old(D().observed)
    {
      hide Orderly, Truthful, Digested, Decisions;
      sidebarNow, channelNow := sidebar, channel;
      presenceNow, typingNow, reset, stop := EphemeralKinds(presence, typing, connect);
      if reset || stop.Some? {
        return;
      }
      sidebarNow, stop := Recount(sidebar);
      if stop.Some? {
        return;
      }
      channelNow, stop := RefreshChannel(channel);
    }

    /** ephemeral: both kinds in turn, each against the level loaded before. */
    method EphemeralKinds(presence: int, typing: int, connect: bool)
      returns (presenceNow: int, typingNow: int, reset: bool, stop: Option<Stop>)
      requires Valid() && !D().closed && presence == D().presence && typing == D().typing && Idle(!connect, D()) && D().owners.wanted == Wanted()
      modifies this`at, this`cursor, this`log
      ensures Valid() && old(at) <= at && SamePlace(old(D()), D())
      ensures LastRead(old(D()), D()) && D().observed == old(D().observed) && D().covered == old(D().covered)
      ensures Decisions(log) == old(Decisions(log)) && D().owners.wanted == Wanted()
      ensures D().closed <==> reset
      ensures reset ==> stop.None?
      ensures stop.Some? ==> Blamed(stop.value)
      ensures stop.None? && !reset ==> presenceNow == D().presence && typingNow == D().typing && Idle(true, D())
    {
      hide Orderly, Truthful, Digested, Decisions;
      presenceNow, typingNow := presence, typing;
      var a := Ask();
      var b := Ask();
      presenceNow, reset, stop := Ephemeral(Presence, presence, a.level, connect);
      if reset || stop.Some? {
        return;
      }
      typingNow, reset, stop := Ephemeral(Typing, typing, b.level, connect);
    }
  }

  lemma WrittenId(d: Digest, e: Entry)
    requires Writes(e)
    ensures Step(d, e).lastId == match e
                                 case Delivered(s, _) => s
                                 case Checkpoint(id) => id
                                 case Reset(id, _) => id
                                 case _ => d.lastId
  {
  }

  lemma CheckpointStep(d: Digest, k: nat, id: int)
    requires !d.closed
    ensures Allowed(d, Due(Beat, k))
    ensures Step(d, Due(Beat, k)) == d.(checked := false, waiting := false, duties := Duties(d.duties.due + {Beat}, d.duties.early))
    ensures d.checked && d.lastId < id == d.cursor ==> Allowed(d, Entry.Checkpoint(id))
    ensures Step(d, Entry.Checkpoint(id)) ==
              d.(checked := false, waiting := false, lastId := id, duties := Duties(d.duties.due - {Beat}, d.duties.early))
  {
  }

  lemma ToldStep(d: Digest, kind: Kind, generation: int, named: bool, resets: bool, k: nat)
    requires !d.closed && d.owners.told.None?
    ensures Allowed(d, Told(kind, generation, named, resets, k))
    ensures Step(d, Told(kind, generation, named, resets, k)) ==
              d.(checked := false, waiting := false, owners :=
                 Owners(d.owners.wanted, d.owners.asked + {kind},
                        Some(Telling(kind, generation, News(d, kind, generation, named), resets, false))))
  {
  }

  lemma FrameStep(d: Digest, closes: bool)
    requires !d.closed && d.owners.told.Some? && d.owners.told.value.news && !d.owners.told.value.shown && closes == d.owners.told.value.resets
    ensures Allowed(d.(checked := true, waiting := false), Frame(closes))
    ensures Step(d, Frame(closes)) == d.(checked := false, waiting := false, closed := closes, owners := Shown(d.owners))
  {
  }

  lemma OwnedStep(d: Digest, kind: Kind, generation: int)
    requires !d.closed && d.owners.told.Some? && kind == d.owners.told.value.kind && generation == d.owners.told.value.generation
    requires d.owners.told.value.news ==> d.owners.told.value.shown
    ensures Allowed(d, Owned(kind, generation))
    ensures var u := d.(checked := false, waiting := false, owners := Owners(d.owners.wanted, d.owners.asked, None));
            Step(d, Owned(kind, generation)) ==
              if kind.Presence? then u.(presence := Max(d.presence, generation)) else u.(typing := Max(d.typing, generation))
  {
  }

  lemma RenewSteps(d: Digest)
    requires !d.closed
    ensures Allowed(d, Renewing)
    ensures Step(d, Renewing) == d.(checked := false, waiting := false, channel := Channel(d.channel.owed, true, d.channel.calls))
    ensures d.channel.renewing ==> Allowed(d.(checked := true, waiting := false), Renewed)
    ensures Step(d, Renewed) == d.(checked := false, waiting := false, channel := Channel(false, false, d.channel.calls),
                                   duties := Duties(d.duties.due - {Refresh}, d.duties.early))
  {
  }

  /** Nothing was read since the wait began, and it may go on. */
  ghost predicate Rests(began: Digest, w: Entry, d: Digest) {
    !d.closed && Allowed(d, w) && SameReads(began.(seen := d.seen), d) && d.cursor == began.cursor
  }

  lemma RestsFirst(began: Digest, w: Entry)
    requires Allowed(began, w)
    ensures Rests(began, w, began)
  {
  }

  lemma WaitStep(began: Digest, w: Entry, d: Digest)
    requires Rests(began, w, d) && w.Waiting?
    ensures Allowed(d, w)
    ensures Step(d, w) == d.(checked := false, waiting := true, seen := w.after)
    ensures SameReads(began.(seen := w.after), Step(d, w)) && !d.closed && d.cursor == began.cursor
    ensures w.after == Max(d.cursor, d.seen) && d.duties.due == {}
    ensures w.recountDue || w.refreshDue ==> d.duties.early != {}
  {
  }

  /** It is blocked in a wait that began with this digest. */
  ghost predicate Rested(began: Digest, w: Entry, d: Digest) {
    && w.Waiting? && d.waiting && !d.closed && SameReads(began.(seen := w.after), d) && d.cursor == began.cursor
    && d.duties.due == {} && (w.recountDue || w.refreshDue ==> d.duties.early != {})
  }

  lemma RestedFacts(began: Digest, w: Entry, d: Digest)
    requires Rested(began, w, d)
    ensures d.waiting && !d.closed && d.cursor == began.cursor && d.duties.due == {} && d.seen == w.after
    ensures w.recountDue || w.refreshDue ==> d.duties.early != {}
  {
  }

  lemma RestedEnds(began: Digest, w: Entry, d: Digest, e: Digest)
    requires Rested(began, w, d) && (e == d || SameReads(d.(seen := e.seen, duties := e.duties), e))
    ensures SameReads(began.(seen := e.seen, duties := e.duties), e)
  {
  }

  lemma BeatenEnds(d: Digest, e: Digest)
    requires SameReads(d.(duties := e.duties), e)
    ensures SameReads(d.(seen := e.seen, duties := e.duties), e) && e.seen == d.seen
    ensures e.duties == d.duties ==> SameReads(d, e)
  {
  }

  /** How a wait can end. */
  lemma WokeStep(d: Digest, level: int)
    requires d.waiting && !d.closed
    ensures Allowed(d, Woke(level))
    ensures Step(d, Woke(level)) == d.(checked := false, waiting := false, seen := level, duties := Duties(d.duties.due, {}))
  {
  }

  lemma ExpiredStep(d: Digest)
    requires d.waiting && !d.closed && d.duties.early != {}
    ensures Allowed(d, Expired)
    ensures Step(d, Expired) == d.(checked := false, waiting := false, duties := Duties(d.duties.due, {}))
  {
  }

  /** After a heartbeat the stream waits as before. */
  lemma WaitAgain(began: Digest, w: Entry, d: Digest, now: Digest)
    requires SameReads(d, now) && !now.closed && now.cursor == d.cursor && w.Waiting? && w.beats
    requires Allowed(began, w) && Rested(began, w, d)
    ensures Rests(began, w, now)
  {
  }

  /** The last read and what the levels cover are untouched. */
  ghost predicate SameReads(d: Digest, e: Digest) {
    SameReadsBut(d, e) && e.observed == d.observed && e.covered == d.covered && e.duties == d.duties
  }

  /** Only the owners and what was seen of them may differ. */
  ghost predicate OnlyOwners(d: Digest, e: Digest) {
    LastRead(d, e) && SamePlace(d, e) && e.observed == d.observed && e.covered == d.covered && e.duties == d.duties
  }

  /** No event was decided, and no ID written. */
  ghost predicate SamePlace(d: Digest, e: Digest) {
    e.cursor == d.cursor && e.lastId == d.lastId
  }

  ghost predicate SameReadsBut(d: Digest, e: Digest) {
    LastRead(d, e) && e.presence == d.presence && e.typing == d.typing && e.owners == d.owners
  }

  ghost predicate LastRead(d: Digest, e: Digest) {
    e.seen == d.seen && e.known == d.known && e.upTo == d.upTo && e.short == d.short && e.channel == d.channel
  }

  /** The batch continues the cursor without a gap. */
  ghost predicate Continues(cursor: int, events: seq<Event>) {
    forall i :: 0 <= i < |events| ==> events[i].seqNo == cursor + 1 + i
  }

  method Contiguous(cursor: int, events: seq<Event>) returns (r: bool)
    ensures r <==> Continues(cursor, events)
  {
    var next, i := cursor + 1, 0;
    while i < |events|
      invariant 0 <= i <= |events| && next == cursor + 1 + i
      invariant forall k :: 0 <= k < i ==> events[k].seqNo == cursor + 1 + k
    {
      if events[i].seqNo != next {
        return false;
      }
      next, i := next + 1, i + 1;
    }
    return true;
  }
}
