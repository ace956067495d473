/** Sessions against streams (internal/web/stream.go, internal/identity/session.go,
    internal/realtime/hub.go): a stream registers and then looks its session
    up again, while sessions are deleted and then their streams cancelled.
    One step per store operation and per critical section of the hub, all
    interleaved freely; a store may commit and still report an error.

    A token and the id of its session are one number here, since a token
    never names two sessions. */
module SessionStreams {
  import opened Common

  datatype Session = Session(account: nat, expiry: nat)

  /** A registered connection: its stream's context, cancelled or not. */
  datatype Connection = Connection(session: nat, account: nat, cancelled: bool)

  datatype Opening =
    | Found          // the middleware resolved the session
    | Registered
    | Rechecked
    | Accepted
    | Failing        // refused, the deferred unregister still to run
    | Over

  datatype Stream = Stream(session: nat, account: nat, phase: Opening)

  datatype Request =
    | Delete(token: nat)
    | Replace(token: nat)
    | DeleteOthers(account: nat, current: nat)

  datatype Deleting =
    | Resolving
    | Mutating(previous: Option<nat>)
    | Cancelling(ids: set<nat>, wholeAccount: Option<nat>)
    | Returned

  datatype Call = Call(request: Request, phase: Deleting)

  datatype Config = Config(maxStreams: nat, limit: nat)

  /** `made` is every session there ever was, `live` those whose row is there;
      `remover` names the call that deleted a session; `tried` are the tokens
      that deleting calls were given. */
  datatype State = State(
    now: nat, made: map<nat, Session>, live: set<nat>, remover: map<nat, nat>, tried: set<nat>,
    shutdown: bool, connections: map<nat, Connection>, streams: map<nat, Stream>, calls: map<nat, Call>)

  datatype Action =
    | Clock
    | Create(id: nat, session: Session)
    | Find(s: nat, token: nat, asOf: nat)
    | Register(s: nat)
    | Recheck(s: nat, asOf: nat, fails: bool)
    | Accept(s: nat)
    | Close(s: nat)
    | ClientGone(s: nat)
    | Shutdown
    | Start(c: nat, request: Request)
    | Resolve(c: nat, asOf: nat, fails: bool)
    | Mutate(c: nat, commits: bool, reports: bool, id: nat, session: Session)  // id, session: Replace's new one
    | CancelSession(c: nat, id: nat)
    | CancelAccount(c: nat)
    | Return(c: nat)
    | Expire(before: nat)

  function Init(): State {
    State(0, map[], {}, map[], {}, false, map[], map[], map[])
  }

  // ----- the hub's critical sections, on the map of connections -----

  function OfAccount(connections: map<nat, Connection>, account: nat): set<nat> {
    set s | s in connections && connections[s].account == account
  }

  predicate Admits(cfg: Config, shutdown: bool, connections: map<nat, Connection>, account: nat) {
    !shutdown && |connections| < cfg.maxStreams && |OfAccount(connections, account)| < cfg.limit
  }

  function CancelledSession(connections: map<nat, Connection>, id: nat): map<nat, Connection> {
    map s | s in connections ::
      if connections[s].session == id then connections[s].(cancelled := true) else connections[s]
  }

  function CancelledAccount(connections: map<nat, Connection>, account: nat): map<nat, Connection> {
    map s | s in connections ::
      if connections[s].account == account then connections[s].(cancelled := true) else connections[s]
  }

  function CancelledAll(connections: map<nat, Connection>): map<nat, Connection> {
    map s | s in connections :: connections[s].(cancelled := true)
  }

  // ----- the store -----

  /** SessionAccount: the session if its row is there and expires after asOf. */
  predicate Resolves(made: map<nat, Session>, live: set<nat>, token: nat, asOf: nat) {
    token in live && token in made && made[token].expiry > asOf
  }

  /** The sessions a committed mutation deletes. */
  function Deleted(made: map<nat, Session>, live: set<nat>, request: Request): set<nat> {
    match request
    case Delete(token) => live * {token}
    case Replace(token) => live * {token}
    case DeleteOthers(account, current) => set x | x in live && x in made && made[x].account == account && x != current
  }

  /** What the call then cancels: the deleted sessions the store reports, or,
      when it reports an error, whatever may have been deleted. */
  function Owed(request: Request, previous: Option<nat>, deleted: set<nat>, reports: bool): Deleting {
    if !reports then Cancelling(deleted, None)
    else if request.DeleteOthers? then Cancelling({}, Some(request.account))
    else Cancelling(if previous.Some? then {previous.value} else {}, None)
  }

  // ----- steps -----

  function MoveStream(s: State, x: nat, phase: Opening): State
    requires x in s.streams
  {
    s.(streams := s.streams[x := s.streams[x].(phase := phase)])
  }

  function MoveCall(s: State, c: nat, phase: Deleting): State
    requires c in s.calls
  {
    s.(calls := s.calls[c := s.calls[c].(phase := phase)])
  }

  predicate Ended(s: State, x: nat)
    requires x in s.connections
  {
    s.connections[x].cancelled || (s.connections[x].session in s.made && s.now >= s.made[s.connections[x].session].expiry)
  }

  /** A mutation takes effect, or not, and the call takes note of what it owes. */
  function Mutated(s: State, c: nat, commits: bool, reports: bool): State
    requires c in s.calls && s.calls[c].phase.Mutating?
  {
    var request, previous := s.calls[c].request, s.calls[c].phase.previous;
    var deleted := if commits then Deleted(s.made, s.live, request) else {};
    MoveCall(s, c, Owed(request, previous, deleted, reports))
      .(live := s.live - deleted, remover := s.remover + map x | x in deleted :: c)
  }

  predicate Enabled(cfg: Config, s: State, a: Action) {
    match a
    case Clock => true
    case Create(id, session) => id !in s.made && id !in s.tried
    case Find(x, token, asOf) => x !in s.streams && asOf <= s.now && Resolves(s.made, s.live, token, asOf)
    case Register(x) => x in s.streams && s.streams[x].phase.Found? && x !in s.connections
    case Recheck(x, asOf, _) => x in s.streams && s.streams[x].phase.Registered? && asOf <= s.now
    case Accept(x) => x in s.streams && s.streams[x].phase.Rechecked? && x in s.connections
    case Close(x) => x in s.streams && (s.streams[x].phase.Failing? || s.streams[x].phase.Accepted?)
    case ClientGone(x) => x in s.connections
    case Shutdown => true
    case Start(c, request) => c !in s.calls
    case Resolve(c, asOf, _) => c in s.calls && s.calls[c].phase.Resolving? && asOf <= s.now && !s.calls[c].request.DeleteOthers?
    case Mutate(c, commits, reports, id, _) =>
      && c in s.calls && s.calls[c].phase.Mutating? && (commits || reports)
      && id !in s.made && id !in s.tried
    case CancelSession(c, id) => c in s.calls && s.calls[c].phase.Cancelling? && id in s.calls[c].phase.ids
    case CancelAccount(c) => c in s.calls && s.calls[c].phase.Cancelling? && s.calls[c].phase.wholeAccount.Some?
    case Return(c) =>
      c in s.calls && s.calls[c].phase == Cancelling({}, None)
    case Expire(before) => before <= s.now
  }

  function Next(cfg: Config, s: State, a: Action): State
    requires Enabled(cfg, s, a)
  {
    match a
    case Clock => s.(now := s.now + 1)
    case Create(id, session) => s.(made := s.made[id := session], live := s.live + {id})
    case Find(x, token, _) => s.(streams := s.streams[x := Stream(token, s.made[token].account, Found)])
    case Register(x) =>
      var stream := s.streams[x];
      if Admits(cfg, s.shutdown, s.connections, stream.account) then
        MoveStream(s, x, Registered)
          .(connections := s.connections[x := Connection(stream.session, stream.account, false)])
      else MoveStream(s, x, Over)
    case Recheck(x, asOf, fails) =>
      MoveStream(s, x, if !fails && Resolves(s.made, s.live, s.streams[x].session, asOf) then Rechecked else Failing)
    case Accept(x) => MoveStream(s, x, if Ended(s, x) then Failing else Accepted)
    case Close(x) => MoveStream(s, x, Over).(connections := s.connections - {x})
    case ClientGone(x) => s.(connections := s.connections[x := s.connections[x].(cancelled := true)])
    case Shutdown => s.(shutdown := true, connections := CancelledAll(s.connections))
    case Start(c, request) =>
      if request.DeleteOthers? then s.(calls := s.calls[c := Call(request, Mutating(None))])
      else s.(calls := s.calls[c := Call(request, Resolving)], tried := s.tried + {request.token})
    case Resolve(c, asOf, fails) =>
      var token := s.calls[c].request.token;
      MoveCall(s, c, if fails then Returned
                     else Mutating(if Resolves(s.made, s.live, token, asOf) then Some(token) else None))
    case Mutate(c, commits, reports, id, session) =>
      var t := Mutated(s, c, commits, reports);
      if commits && s.calls[c].request.Replace? then t.(made := t.made[id := session], live := t.live + {id}) else t
    case CancelSession(c, id) =>
      MoveCall(s, c, s.calls[c].phase.(ids := s.calls[c].phase.ids - {id}))
        .(connections := CancelledSession(s.connections, id))
    case CancelAccount(c) =>
      MoveCall(s, c, s.calls[c].phase.(wholeAccount := None))
        .(connections := CancelledAccount(s.connections, s.calls[c].phase.wholeAccount.value))
    case Return(c) => MoveCall(s, c, Returned)
    case Expire(before) =>
      s.(live := set x | x in s.live && !(x in s.made && s.made[x].expiry <= before))
  }

  // ----- what every step keeps -----

  /** A deleted session is no longer live, and its remover has mutated. */
  ghost predicate StoreInv(now: nat, made: map<nat, Session>, live: set<nat>, remover: map<nat, nat>, calls: map<nat, Call>) {
    && (forall x :: x in live ==> x in made && x !in remover)
    && (forall x :: x in made && x !in live ==> x in remover || now >= made[x].expiry)
    && (forall x :: x in remover ==>
          x in made && remover[x] in calls && (calls[remover[x]].phase.Cancelling? || calls[remover[x]].phase.Returned?))
  }

  /** Before it mutates, a call knows the session it will delete, unless that
      session has expired. */
  ghost predicate CallOk(call: Call, now: nat, made: map<nat, Session>, live: set<nat>, tried: set<nat>) {
    && (!call.request.DeleteOthers? ==> call.request.token in tried)
    && (call.phase.Resolving? ==> !call.request.DeleteOthers?)
    && (call.phase.Mutating? && !call.request.DeleteOthers? && call.request.token in live ==>
          call.phase.previous == Some(call.request.token)
          || (call.request.token in made && now >= made[call.request.token].expiry))
  }

  ghost predicate CallsInv(calls: map<nat, Call>, now: nat, made: map<nat, Session>, live: set<nat>, tried: set<nat>) {
    forall c :: c in calls ==> CallOk(calls[c], now, made, live, tried)
  }

  ghost predicate Owes(call: Call, x: nat, account: nat) {
    call.phase.Cancelling? && (x in call.phase.ids || call.phase.wholeAccount == Some(account))
  }

  /** An unexpired session whose stream has passed the second look is live,
      or the call that deleted it still owes the cancellation. */
  ghost predicate Guarded(x: nat, now: nat, made: map<nat, Session>, live: set<nat>, remover: map<nat, nat>, calls: map<nat, Call>) {
    && x in made
    && (|| x in live || now >= made[x].expiry
        || (x in remover && remover[x] in calls && Owes(calls[remover[x]], x, made[x].account)))
  }

  ghost predicate GuardedInv(streams: map<nat, Stream>, connections: map<nat, Connection>, now: nat, made: map<nat, Session>,
                             live: set<nat>, remover: map<nat, nat>, calls: map<nat, Call>)
  {
    forall x :: x in streams && (streams[x].phase.Rechecked? || streams[x].phase.Accepted?) ==>
      x in connections && (connections[x].cancelled || Guarded(streams[x].session, now, made, live, remover, calls))
  }

  predicate Holds(phase: Opening) {
    phase.Registered? || phase.Rechecked? || phase.Accepted? || phase.Failing?
  }

  /** Exactly the streams between Register and Close are registered, each
      under its session and account, within both caps. */
  ghost predicate HubInv(cfg: Config, shutdown: bool, made: map<nat, Session>, connections: map<nat, Connection>, streams: map<nat, Stream>) {
    && (forall x :: x in connections ==> x in streams && Holds(streams[x].phase)
                                         && connections[x].session == streams[x].session
                                         && connections[x].account == streams[x].account
                                         && (shutdown ==> connections[x].cancelled))
    && (forall x :: x in streams && Holds(streams[x].phase) ==> x in connections)
    && (forall x :: x in streams ==> streams[x].session in made && streams[x].account == made[streams[x].session].account)
  }

  ghost predicate CapsInv(cfg: Config, connections: map<nat, Connection>) {
    && |connections| <= cfg.maxStreams
    && forall a :: |OfAccount(connections, a)| <= cfg.limit
  }

  ghost predicate Inv(cfg: Config, s: State) {
    && StoreInv(s.now, s.made, s.live, s.remover, s.calls)
    && CallsInv(s.calls, s.now, s.made, s.live, s.tried)
    && GuardedInv(s.streams, s.connections, s.now, s.made, s.live, s.remover, s.calls)
    && HubInv(cfg, s.shutdown, s.made, s.connections, s.streams)
    && CapsInv(cfg, s.connections)
  }

  // ----- the caps -----

  lemma SameSize(a: map<nat, Connection>, b: map<nat, Connection>)
    requires a.Keys == b.Keys
    ensures |a| == |b|
  {
    assert |a| == |a.Keys| && |b| == |b.Keys|;
  }

  lemma CapsMarked(cfg: Config, a: map<nat, Connection>, b: map<nat, Connection>)
    requires CapsInv(cfg, a) && b.Keys == a.Keys && forall x :: x in a ==> b[x].account == a[x].account
    ensures CapsInv(cfg, b)
  {
    SameSize(a, b);
    forall account ensures OfAccount(b, account) == OfAccount(a, account) {
    }
  }

  lemma AccountAdded(connections: map<nat, Connection>, x: nat, c: Connection, account: nat)
    requires x !in connections
    ensures |OfAccount(connections[x := c], account)| == |OfAccount(connections, account)| + if account == c.account then 1 else 0
  {
    assert OfAccount(connections[x := c], account)
        == OfAccount(connections, account) + if account == c.account then {x} else {};
  }

  lemma CapsAdded(cfg: Config, connections: map<nat, Connection>, x: nat, c: Connection)
    requires CapsInv(cfg, connections) && x !in connections && Admits(cfg, false, connections, c.account)
    ensures CapsInv(cfg, connections[x := c])
  {
    var added := connections[x := c];
    assert added.Keys == connections.Keys + {x};
    hide OfAccount;
    forall account ensures |OfAccount(added, account)| <= cfg.limit {
      AccountAdded(connections, x, c, account);
    }
  }

  lemma CapsRemoved(cfg: Config, connections: map<nat, Connection>, x: nat)
    requires CapsInv(cfg, connections)
    ensures CapsInv(cfg, connections - {x})
  {
    var removed := connections - {x};
    if x in connections {
      assert removed[x := connections[x]] == connections;
      assert connections.Keys == removed.Keys + {x};
    } else {
      assert removed == connections;
    }
    hide OfAccount;
    forall account ensures |OfAccount(removed, account)| <= cfg.limit {
      if x in connections {
        AccountAdded(removed, x, connections[x], account);
      }
    }
  }

  // ----- one kind of change at a time -----

  /** Time passes. */
  lemma ClockKept(cfg: Config, s: State)
    requires Inv(cfg, s)
    ensures Inv(cfg, s.(now := s.now + 1))
  {
    hide HubInv, CapsInv;
    forall c | c in s.calls ensures CallOk(s.calls[c], s.now + 1, s.made, s.live, s.tried) {
      assert CallOk(s.calls[c], s.now, s.made, s.live, s.tried);
    }
    forall x | x in s.streams && (s.streams[x].phase.Rechecked? || s.streams[x].phase.Accepted?)
      ensures x in s.connections &&
              (s.connections[x].cancelled || Guarded(s.streams[x].session, s.now + 1, s.made, s.live, s.remover, s.calls))
    {
    }
  }

  lemma GuardedMoved(streams: map<nat, Stream>, connections: map<nat, Connection>, now: nat, made: map<nat, Session>,
                     live: set<nat>, remover: map<nat, nat>, calls: map<nat, Call>, x: nat, phase: Opening)
    requires GuardedInv(streams, connections, now, made, live, remover, calls) && x in streams
    requires phase.Rechecked? || phase.Accepted? ==>
               x in connections && (connections[x].cancelled || Guarded(streams[x].session, now, made, live, remover, calls))
    ensures GuardedInv(streams[x := streams[x].(phase := phase)], connections, now, made, live, remover, calls)
  {
    hide Guarded;
  }

  lemma HubStreamMoved(cfg: Config, shutdown: bool, made: map<nat, Session>, connections: map<nat, Connection>,
                       streams: map<nat, Stream>, x: nat, phase: Opening)
    requires HubInv(cfg, shutdown, made, connections, streams) && x in streams && Holds(streams[x].phase) == Holds(phase)
    ensures HubInv(cfg, shutdown, made, connections, streams[x := streams[x].(phase := phase)])
  {
    hide Holds;
  }

  /** A stream moves on; past the second look it must be guarded. */
  lemma StreamMoved(cfg: Config, s: State, x: nat, phase: Opening)
    requires Inv(cfg, s) && x in s.streams && Holds(s.streams[x].phase) == Holds(phase)
    requires phase.Rechecked? || phase.Accepted? ==>
               x in s.connections &&
               (s.connections[x].cancelled || Guarded(s.streams[x].session, s.now, s.made, s.live, s.remover, s.calls))
    ensures Inv(cfg, MoveStream(s, x, phase))
  {
    hide StoreInv, CallsInv, GuardedInv, HubInv, CapsInv, Guarded;
    GuardedMoved(s.streams, s.connections, s.now, s.made, s.live, s.remover, s.calls, x, phase);
    HubStreamMoved(cfg, s.shutdown, s.made, s.connections, s.streams, x, phase);
  }

  lemma HubMoved(cfg: Config, shutdown: bool, made: map<nat, Session>, connections: map<nat, Connection>,
                 streams: map<nat, Stream>, x: nat, phase: Opening, c: Connection)
    requires HubInv(cfg, shutdown, made, connections, streams) && x in streams
    requires c.session == streams[x].session && c.account == streams[x].account && (shutdown ==> c.cancelled)
    ensures Holds(phase) ==> HubInv(cfg, shutdown, made, connections[x := c], streams[x := streams[x].(phase := phase)])
    ensures !Holds(phase) ==> HubInv(cfg, shutdown, made, connections - {x}, streams[x := streams[x].(phase := phase)])
  {
  }

  lemma RegisterKept(cfg: Config, s: State, x: nat)
    requires Inv(cfg, s) && x in s.streams && s.streams[x].phase.Found? && x !in s.connections
    requires Admits(cfg, s.shutdown, s.connections, s.streams[x].account)
    ensures Inv(cfg, MoveStream(s, x, Registered)
                       .(connections := s.connections[x := Connection(s.streams[x].session, s.streams[x].account, false)]))
  {
    var c := Connection(s.streams[x].session, s.streams[x].account, false);
    hide StoreInv, CallsInv, CapsInv, HubInv, Guarded;
    CapsAdded(cfg, s.connections, x, c);
    HubMoved(cfg, s.shutdown, s.made, s.connections, s.streams, x, Registered, c);
  }

  lemma CloseKept(cfg: Config, s: State, x: nat)
    requires Inv(cfg, s) && x in s.streams
    ensures Inv(cfg, MoveStream(s, x, Over).(connections := s.connections - {x}))
  {
    hide StoreInv, CallsInv, CapsInv, HubInv, Guarded;
    CapsRemoved(cfg, s.connections, x);
    HubMoved(cfg, s.shutdown, s.made, s.connections, s.streams, x, Over, Connection(s.streams[x].session, s.streams[x].account, true));
  }

  /** The map marks some connections cancelled and changes nothing else. */
  ghost predicate Marks(a: map<nat, Connection>, b: map<nat, Connection>) {
    b.Keys == a.Keys && forall x :: x in a ==> b[x] == a[x] || b[x] == a[x].(cancelled := true)
  }

  lemma MarkKept(cfg: Config, s: State, connections: map<nat, Connection>)
    requires Inv(cfg, s) && Marks(s.connections, connections)
    ensures Inv(cfg, s.(connections := connections))
  {
    CapsMarked(cfg, s.connections, connections);
    hide StoreInv, CallsInv, CapsInv, Guarded;
  }

  lemma ShutdownKept(cfg: Config, s: State)
    requires Inv(cfg, s)
    ensures Inv(cfg, s.(shutdown := true, connections := CancelledAll(s.connections)))
  {
    hide StoreInv, CallsInv, GuardedInv, HubInv, CapsInv;
    MarkKept(cfg, s, CancelledAll(s.connections));
    assert HubInv(cfg, true, s.made, CancelledAll(s.connections), s.streams) by { ShutdownHub(cfg, s); }
  }

  lemma ShutdownHub(cfg: Config, s: State)
    requires HubInv(cfg, s.shutdown, s.made, s.connections, s.streams)
    ensures HubInv(cfg, true, s.made, CancelledAll(s.connections), s.streams)
  {
  }

  lemma CreateKept(cfg: Config, s: State, id: nat, session: Session)
    requires Inv(cfg, s) && id !in s.made && id !in s.tried
    ensures Inv(cfg, s.(made := s.made[id := session], live := s.live + {id}))
  {
    hide CapsInv;
    var made, live := s.made[id := session], s.live + {id};
    forall c | c in s.calls ensures CallOk(s.calls[c], s.now, made, live, s.tried) {
      assert CallOk(s.calls[c], s.now, s.made, s.live, s.tried);
    }
  }

  lemma FindKept(cfg: Config, s: State, x: nat, token: nat)
    requires Inv(cfg, s) && x !in s.streams && token in s.made
    ensures Inv(cfg, s.(streams := s.streams[x := Stream(token, s.made[token].account, Found)]))
  {
    hide StoreInv, CallsInv, CapsInv, Guarded;
  }

  // ----- deleting -----

  /** A call that has not mutated yet owes nothing, so it may move freely. */
  lemma CallMoved(cfg: Config, s: State, c: nat, call: Call, tried: set<nat>)
    requires Inv(cfg, s) && CallOk(call, s.now, s.made, s.live, tried) && s.tried <= tried
    requires c in s.calls ==> !s.calls[c].phase.Cancelling? && !s.calls[c].phase.Returned?
    ensures Inv(cfg, s.(calls := s.calls[c := call], tried := tried))
  {
    hide HubInv, CapsInv;
    forall d | d in s.calls && d != c ensures CallOk(s.calls[d], s.now, s.made, s.live, tried) {
      assert CallOk(s.calls[d], s.now, s.made, s.live, s.tried);
    }
  }

  /** Every deleted session is owed, or has expired. */
  lemma DeletedAreOwed(s: State, c: nat, commits: bool, reports: bool, x: nat)
    requires c in s.calls && CallOk(s.calls[c], s.now, s.made, s.live, s.tried) && s.calls[c].phase.Mutating?
    requires commits && x in Deleted(s.made, s.live, s.calls[c].request) && x in s.made
    ensures var request := s.calls[c].request;
            var phase := Owed(request, s.calls[c].phase.previous, Deleted(s.made, s.live, request), reports);
            s.now >= s.made[x].expiry || Owes(Call(request, phase), x, s.made[x].account)
  {
  }

  lemma MutateKept(cfg: Config, s: State, c: nat, commits: bool, reports: bool)
    requires Inv(cfg, s) && c in s.calls && s.calls[c].phase.Mutating? && (commits || reports)
    ensures Inv(cfg, Mutated(s, c, commits, reports))
  {
    var request := s.calls[c].request;
    var deleted := if commits then Deleted(s.made, s.live, request) else {};
    var call := Call(request, Owed(request, s.calls[c].phase.previous, deleted, reports));
    assert deleted <= s.live;
    hide StoreInv, CallsInv, GuardedInv, HubInv, CapsInv, Deleted;
    MutatedStore(s, c, deleted, call);
    MutatedCalls(s, c, deleted, call);
    MutatedGuards(s, c, commits, reports);
  }

  lemma MutatedGuards(s: State, c: nat, commits: bool, reports: bool)
    requires StoreInv(s.now, s.made, s.live, s.remover, s.calls) && CallsInv(s.calls, s.now, s.made, s.live, s.tried)
    requires GuardedInv(s.streams, s.connections, s.now, s.made, s.live, s.remover, s.calls)
    requires c in s.calls && s.calls[c].phase.Mutating?
    ensures var t := Mutated(s, c, commits, reports);
            GuardedInv(s.streams, s.connections, s.now, s.made, t.live, t.remover, t.calls)
  {
    var t := Mutated(s, c, commits, reports);
    assert CallOk(s.calls[c], s.now, s.made, s.live, s.tried);
    forall y | Guarded(y, s.now, s.made, s.live, s.remover, s.calls)
      ensures Guarded(y, s.now, s.made, t.live, t.remover, t.calls)
    {
      if commits && y in Deleted(s.made, s.live, s.calls[c].request) {
        DeletedAreOwed(s, c, commits, reports, y);
      }
    }
    hide Guarded, StoreInv, CallsInv;
  }

  lemma MutatedStore(s: State, c: nat, deleted: set<nat>, call: Call)
    requires StoreInv(s.now, s.made, s.live, s.remover, s.calls) && c in s.calls && deleted <= s.live && call.phase.Cancelling?
    ensures StoreInv(s.now, s.made, s.live - deleted, s.remover + map x | x in deleted :: c, s.calls[c := call])
  {
  }

  lemma MutatedCalls(s: State, c: nat, deleted: set<nat>, call: Call)
    requires CallsInv(s.calls, s.now, s.made, s.live, s.tried) && c in s.calls
    requires call.request == s.calls[c].request && call.phase.Cancelling?
    ensures CallsInv(s.calls[c := call], s.now, s.made, s.live - deleted, s.tried)
  {
    assert CallOk(s.calls[c], s.now, s.made, s.live, s.tried);
    forall d | d in s.calls && d != c ensures CallOk(s.calls[d], s.now, s.made, s.live - deleted, s.tried) {
      assert CallOk(s.calls[d], s.now, s.made, s.live, s.tried);
    }
  }

  /** With the new phase the call no longer owes y's cancellation. */
  ghost predicate Discharged(s: State, c: nat, phase: Deleting, y: nat)
    requires c in s.calls
  {
    y in s.made && Owes(s.calls[c], y, s.made[y].account) && !Owes(Call(s.calls[c].request, phase), y, s.made[y].account)
  }

  /** A cancellation carried out is no longer owed. */
  lemma CancelKept(cfg: Config, s: State, c: nat, phase: Deleting, connections: map<nat, Connection>)
    requires Inv(cfg, s) && c in s.calls && s.calls[c].phase.Cancelling? && phase.Cancelling?
    requires Marks(s.connections, connections)
    requires forall x :: x in connections && x in s.streams && Discharged(s, c, phase, s.streams[x].session) ==> connections[x].cancelled
    ensures Inv(cfg, MoveCall(s, c, phase).(connections := connections))
  {
    MarkKept(cfg, s, connections);
    var calls := s.calls[c := s.calls[c].(phase := phase)];
    hide CapsInv;
    forall d | d in calls ensures CallOk(calls[d], s.now, s.made, s.live, s.tried) {
      assert CallOk(s.calls[d], s.now, s.made, s.live, s.tried);
    }
    forall x | x in s.streams && (s.streams[x].phase.Rechecked? || s.streams[x].phase.Accepted?)
      ensures x in connections && (connections[x].cancelled || Guarded(s.streams[x].session, s.now, s.made, s.live, s.remover, calls))
    {
      var y := s.streams[x].session;
      assert connections[x].cancelled || Guarded(y, s.now, s.made, s.live, s.remover, s.calls);
    }
  }

  lemma CancelSessionKept(cfg: Config, s: State, c: nat, id: nat)
    requires Inv(cfg, s) && Enabled(cfg, s, CancelSession(c, id))
    ensures Inv(cfg, Next(cfg, s, CancelSession(c, id)))
  {
    forall x | x in s.connections ensures s.connections[x].session == s.streams[x].session {
    }
    hide Inv;
    CancelKept(cfg, s, c, s.calls[c].phase.(ids := s.calls[c].phase.ids - {id}), CancelledSession(s.connections, id));
  }

  lemma CancelAccountKept(cfg: Config, s: State, c: nat)
    requires Inv(cfg, s) && Enabled(cfg, s, CancelAccount(c))
    ensures Inv(cfg, Next(cfg, s, CancelAccount(c)))
  {
    var connections := CancelledAccount(s.connections, s.calls[c].phase.wholeAccount.value);
    forall x | x in connections ensures connections[x].session in s.made && connections[x].account == s.made[connections[x].session].account {
      assert s.connections[x].session == s.streams[x].session;
    }
    hide Inv;
    CancelKept(cfg, s, c, s.calls[c].phase.(wholeAccount := None), connections);
  }

  lemma ReturnKept(cfg: Config, s: State, c: nat)
    requires Inv(cfg, s) && c in s.calls && s.calls[c].phase == Cancelling({}, None)
    ensures Inv(cfg, MoveCall(s, c, Returned))
  {
    hide HubInv, CapsInv;
    var calls := s.calls[c := s.calls[c].(phase := Returned)];
    forall d | d in calls ensures CallOk(calls[d], s.now, s.made, s.live, s.tried) {
      assert CallOk(s.calls[d], s.now, s.made, s.live, s.tried);
    }
  }

  lemma ExpireKept(cfg: Config, s: State, before: nat)
    requires Inv(cfg, s) && before <= s.now
    ensures Inv(cfg, s.(live := set x | x in s.live && !(x in s.made && s.made[x].expiry <= before)))
  {
    hide HubInv, CapsInv;
    var live := set x | x in s.live && !(x in s.made && s.made[x].expiry <= before);
    forall c | c in s.calls ensures CallOk(s.calls[c], s.now, s.made, live, s.tried) {
      assert CallOk(s.calls[c], s.now, s.made, s.live, s.tried);
    }
    forall x | x in s.streams && (s.streams[x].phase.Rechecked? || s.streams[x].phase.Accepted?)
      ensures x in s.connections && (s.connections[x].cancelled || Guarded(s.streams[x].session, s.now, s.made, live, s.remover, s.calls))
    {
    }
  }

  // ----- every step -----

  lemma StreamStepKept(cfg: Config, s: State, a: Action)
    requires Inv(cfg, s) && Enabled(cfg, s, a)
    requires a.Find? || a.Register? || a.Recheck? || a.Accept? || a.Close? || a.ClientGone?
    ensures Inv(cfg, Next(cfg, s, a))
  {
    match a
    case Find(x, token, _) => FindKept(cfg, s, x, token);
    case Register(x) =>
      if Admits(cfg, s.shutdown, s.connections, s.streams[x].account) {
        RegisterKept(cfg, s, x);
      } else {
        StreamMoved(cfg, s, x, Over);
      }
    case Recheck(x, asOf, fails) =>
      assert x in s.connections;
      hide Inv;
      StreamMoved(cfg, s, x, if !fails && Resolves(s.made, s.live, s.streams[x].session, asOf) then Rechecked else Failing);
    case Accept(x) =>
      assert s.connections[x].cancelled || Guarded(s.streams[x].session, s.now, s.made, s.live, s.remover, s.calls);
      hide Inv, Guarded;
      StreamMoved(cfg, s, x, if Ended(s, x) then Failing else Accepted);
    case Close(x) => CloseKept(cfg, s, x);
    case ClientGone(x) =>
      hide Inv;
      MarkKept(cfg, s, s.connections[x := s.connections[x].(cancelled := true)]);
  }

  lemma CallStepKept(cfg: Config, s: State, a: Action)
    requires Inv(cfg, s) && Enabled(cfg, s, a)
    requires a.Start? || a.Resolve? || a.Mutate? || a.CancelSession? || a.CancelAccount? || a.Return?
    ensures Inv(cfg, Next(cfg, s, a))
  {
    match a
    case Start(c, request) =>
      hide Inv;
      if request.DeleteOthers? {
        CallMoved(cfg, s, c, Call(request, Mutating(None)), s.tried);
      } else {
        CallMoved(cfg, s, c, Call(request, Resolving), s.tried + {request.token});
      }
    case Resolve(c, asOf, fails) => ResolveKept(cfg, s, c, asOf, fails);
    case Mutate(c, commits, reports, id, session) =>
      MutateKept(cfg, s, c, commits, reports);
      hide Inv, Mutated;
      if commits && s.calls[c].request.Replace? {
        CreateKept(cfg, Mutated(s, c, commits, reports), id, session);
      }
    case CancelSession(c, id) => CancelSessionKept(cfg, s, c, id);
    case CancelAccount(c) => CancelAccountKept(cfg, s, c);
    case Return(c) => ReturnKept(cfg, s, c);
  }

  lemma ResolveKept(cfg: Config, s: State, c: nat, asOf: nat, fails: bool)
    requires Inv(cfg, s) && Enabled(cfg, s, Resolve(c, asOf, fails))
    ensures Inv(cfg, Next(cfg, s, Resolve(c, asOf, fails)))
  {
    var token := s.calls[c].request.token;
    var phase := if fails then Returned
                 else Mutating(if Resolves(s.made, s.live, token, asOf) then Some(token) else None);
    assert CallOk(s.calls[c], s.now, s.made, s.live, s.tried);
    assert token in s.live ==> token in s.made;
    assert CallOk(s.calls[c].(phase := phase), s.now, s.made, s.live, s.tried);
    hide Inv, CallOk;
    CallMoved(cfg, s, c, s.calls[c].(phase := phase), s.tried);
  }

  lemma InvKept(cfg: Config, s: State, a: Action)
    requires Inv(cfg, s) && Enabled(cfg, s, a)
    ensures Inv(cfg, Next(cfg, s, a))
  {
    hide Inv;
    match a
    case Clock => ClockKept(cfg, s);
    case Create(id, session) => CreateKept(cfg, s, id, session);
    case Shutdown => ShutdownKept(cfg, s);
    case Expire(before) => ExpireKept(cfg, s, before);
    case Find(_, _, _) => StreamStepKept(cfg, s, a);
    case Register(_) => StreamStepKept(cfg, s, a);
    case Recheck(_, _, _) => StreamStepKept(cfg, s, a);
    case Accept(_) => StreamStepKept(cfg, s, a);
    case Close(_) => StreamStepKept(cfg, s, a);
    case ClientGone(_) => StreamStepKept(cfg, s, a);
    case _ => CallStepKept(cfg, s, a);
  }
}
