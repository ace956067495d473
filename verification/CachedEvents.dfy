module CachedEvents {
  /** Shared event reads (internal/realtime/cached_events.go) on top of the
      cache: streams at one cursor share a database read, yet every answer is
      one that the database itself could have given during the call. */

  import opened Common
  import opened RealtimeCache
  import opened RealtimeCacheRuns

  datatype Event = Event(organization: nat, seqNo: int, payload: nat)

  datatype EventsKey = EventsKey(organization: nat, after: int, level: int, limit: int)

  /** The replay window of an organisation's log at one moment: events in
      (boundary, last] are there, without gaps. */
  datatype Window = Window(boundary: int, last: int)

  datatype ReadResult = Rows(rows: seq<Event>) | CursorExpired

  /** The log over time. A committed event never changes; commits move `last`
      up and retention moves `boundary` up. */
  datatype World = World(payload: (nat, int) -> nat, window: (nat, nat) -> Window)
  {
    ghost predicate Valid() {
      && (forall o, t :: window(o, t).boundary <= window(o, t).last)
      && (forall o, t, u :: t <= u ==> window(o, t).boundary <= window(o, u).boundary
                                       && window(o, t).last <= window(o, u).last)
    }

    /** The n events after the cursor. */
    function Range(o: nat, after: int, n: nat): seq<Event> {
      seq(n, i requires 0 <= i => Event(o, after + 1 + i, payload(o, after + 1 + i)))
    }

    /** The direct reader: both cursor bounds are checked in the snapshot
        the rows come from, also when no rows are asked for. */
    function Read(o: nat, after: int, limit: int, t: nat): ReadResult {
      var w := window(o, t);
      if after < w.boundary || after > w.last then CursorExpired
      else Rows(Range(o, after, if limit <= 0 then 0 else Min(limit, w.last - after)))
    }
  }

  /** Batches that fill their limit are kept: the first `limit` events after
      a cursor never change once committed. */
  predicate FullBatch(key: EventsKey, events: seq<Event>) {
    key.limit > 0 && |events| == key.limit
  }

  function Configured(capacity: nat): (cfg: Config<EventsKey, seq<Event>>)
    requires capacity >= 1
    ensures cfg.Valid()
  {
    Config(capacity, 16, true, FullBatch)
  }

  /** Every load reads the database at some moment between its begin and end. */
  ghost predicate LoadsRead(w: World, trace: seq<State<EventsKey, seq<Event>>>,
                            actions: seq<Action<EventsKey, seq<Event>>>)
    requires |trace| == |actions| + 1
  {
    forall j, r, batch :: 0 <= j < |actions| && actions[j] == LoaderReturns(r, Some(batch)) && r in trace[j].runs ==>
      exists t :: trace[j].runs[r].began <= t <= j && ReadAt(w, trace[j].runs[r].key, batch, t)
  }

  ghost predicate ReadAt(w: World, key: EventsKey, batch: seq<Event>, t: nat) {
    w.Read(key.organization, key.after, key.limit, t) == Rows(batch)
  }

  /** What EventsAfter returns, given what Get returned and, for a full
      batch, what the zero-limit read at step m then says. */
  function EventsAfter(w: World, key: EventsKey, got: Outcome<seq<Event>>, m: nat): Option<seq<Event>> {
    if got.Failed? then None
    else if FullBatch(key, got.loaded.value) && w.Read(key.organization, key.after, 0, m).CursorExpired? then None
    else Some(got.loaded.value)
  }

  /** A full batch read earlier is still what the log holds, as long as the
      cursor has not expired. */
  lemma FullBatchesLast(w: World, key: EventsKey, batch: seq<Event>, t: nat, m: nat)
    requires w.Valid() && t <= m && FullBatch(key, batch) && ReadAt(w, key, batch, t)
    requires w.Read(key.organization, key.after, 0, m).Rows?
    ensures ReadAt(w, key, batch, m)
  {
    var at, later := w.window(key.organization, t), w.window(key.organization, m);
    assert |batch| == Min(key.limit, at.last - key.after);
    assert at.last <= later.last;
  }

  /** Loaded values were read while their run was under way. */
  lemma LoadedWasRead(w: World, cfg: Config<EventsKey, seq<Event>>, trace: seq<State<EventsKey, seq<Event>>>,
                      actions: seq<Action<EventsKey, seq<Event>>>, n: nat, g: nat) returns (t: nat)
    requires IsRun(cfg, trace, actions) && LoadsRead(w, trace, actions) && n < |trace|
    requires g in trace[n].gets && trace[n].gets[g].phase.Returned? && trace[n].gets[g].phase.result.Value?
    ensures var l := trace[n].gets[g].phase.result.loaded;
            l.began <= t <= l.ended && ReadAt(w, trace[n].gets[g].key, l.value, t)
  {
    var l := trace[n].gets[g].phase.result.loaded;
    LoadedRun(cfg, trace, actions, n, g);
    t :| trace[l.ended].runs[l.run].began <= t <= l.ended && ReadAt(w, trace[l.ended].runs[l.run].key, l.value, t);
  }

  /** EventsAfter refines the direct reader: a result is exactly what one
      direct read made during the call returns. */
  lemma RefinesDirectRead(w: World, capacity: nat, trace: seq<State<EventsKey, seq<Event>>>,
                          actions: seq<Action<EventsKey, seq<Event>>>, n: nat, g: nat, m: nat) returns (t: nat)
    requires w.Valid() && capacity >= 1
    requires IsRun(Configured(capacity), trace, actions) && LoadsRead(w, trace, actions) && n < |trace| && n <= m
    requires g in trace[n].gets && trace[n].gets[g].phase.Returned?
    requires EventsAfter(w, trace[n].gets[g].key, trace[n].gets[g].phase.result, m).Some?
    ensures var get := trace[n].gets[g];
            && get.start <= t <= m
            && w.Read(get.key.organization, get.key.after, get.key.limit, t)
                 == Rows(EventsAfter(w, get.key, get.phase.result, m).value)
  {
    var cfg, get := Configured(capacity), trace[n].gets[g];
    Freshness(cfg, trace, actions, n, g);
    t := LoadedWasRead(w, cfg, trace, actions, n, g);
    if FullBatch(get.key, get.phase.result.loaded.value) {
      FullBatchesLast(w, get.key, get.phase.result.loaded.value, t, m);
      t := m;
    }
  }

  /** So a result continues the cursor without a gap, and a short one holds
      every event that was committed when the call began. */
  lemma ShortResultsAreComplete(w: World, capacity: nat, trace: seq<State<EventsKey, seq<Event>>>,
                                actions: seq<Action<EventsKey, seq<Event>>>, n: nat, g: nat, m: nat)
    requires w.Valid() && capacity >= 1
    requires IsRun(Configured(capacity), trace, actions) && LoadsRead(w, trace, actions) && n < |trace| && n <= m
    requires g in trace[n].gets && trace[n].gets[g].phase.Returned?
    requires EventsAfter(w, trace[n].gets[g].key, trace[n].gets[g].phase.result, m).Some?
    ensures var get := trace[n].gets[g];
            var rows := EventsAfter(w, get.key, get.phase.result, m).value;
            && (forall i :: 0 <= i < |rows| ==> rows[i].seqNo == get.key.after + 1 + i)
            && (|rows| < get.key.limit ==>
                  get.key.after + |rows| >= w.window(get.key.organization, get.start).last)
  {
    var t := RefinesDirectRead(w, capacity, trace, actions, n, g, m);
    var o := trace[n].gets[g].key.organization;
    assert w.window(o, trace[n].gets[g].start).last <= w.window(o, t).last;
  }
}
