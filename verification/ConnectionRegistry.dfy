module ConnectionRegistry {
  /** The hub's registry of connections (internal/realtime/hub.go): three
      indexes and a count, changed together under one lock. Its methods are the
      critical sections whose effect on the set of connections SessionStreams
      reasons about. */

  import opened Common
  import SS = SessionStreams

  datatype Registration = Registration(organization: nat, account: nat, session: nat)

  datatype Outcome = Registered | TooManyConnections | ShuttingDown

  datatype Field = ByAccount | BySession | ByOrganization

  function KeyOf(field: Field, reg: Registration): nat {
    match field
    case ByAccount => reg.account
    case BySession => reg.session
    case ByOrganization => reg.organization
  }

  type Index = map<nat, set<nat>>

  function Bucket(index: Index, key: nat): set<nat> {
    if key in index then index[key] else {}
  }

  function Add(index: Index, key: nat, r: nat): Index {
    index[key := Bucket(index, key) + {r}]
  }

  /** Leaves out the key with its last registration. */
  function Remove(index: Index, key: nat, r: nat): Index {
    var rest := Bucket(index, key) - {r};
    if rest == {} then index - {key} else index[key := rest]
  }

  /** The index holds exactly the live registrations, each under its key. */
  ghost predicate Indexes(index: Index, live: map<nat, Registration>, field: Field) {
    && (forall k :: k in index ==> index[k] != {})
    && (forall k, r :: r in Bucket(index, k) <==> r in live && KeyOf(field, live[r]) == k)
  }

  lemma AddIndexes(index: Index, live: map<nat, Registration>, field: Field, r: nat, reg: Registration)
    requires Indexes(index, live, field) && r !in live
    ensures Indexes(Add(index, KeyOf(field, reg), r), live[r := reg], field)
  {
    var added := Add(index, KeyOf(field, reg), r);
    forall k, x ensures x in Bucket(added, k) <==> x in live[r := reg] && KeyOf(field, live[r := reg][x]) == k {
      assert x in Bucket(index, k) <==> x in live && KeyOf(field, live[x]) == k;
    }
    forall k | k in added ensures added[k] != {} {
      assert k == KeyOf(field, reg) ==> r in added[k];
    }
  }

  lemma RemoveIndexes(index: Index, live: map<nat, Registration>, field: Field, r: nat)
    requires Indexes(index, live, field) && r in live
    ensures Indexes(Remove(index, KeyOf(field, live[r]), r), live - {r}, field)
  {
    var removed := Remove(index, KeyOf(field, live[r]), r);
    forall k, x ensures x in Bucket(removed, k) <==> x in live - {r} && KeyOf(field, (live - {r})[x]) == k {
      assert x in Bucket(index, k) <==> x in live && KeyOf(field, live[x]) == k;
    }
  }

  /** The live registrations as SessionStreams sees them. */
  ghost function Connected(live: map<nat, Registration>, cancelled: set<nat>): map<nat, SS.Connection> {
    map r | r in live :: SS.Connection(live[r].session, live[r].account, r in cancelled)
  }

  lemma ConnectedAdded(live: map<nat, Registration>, cancelled: set<nat>, r: nat, reg: Registration)
    requires r !in cancelled
    ensures Connected(live[r := reg], cancelled)
         == Connected(live, cancelled)[r := SS.Connection(reg.session, reg.account, false)]
  {
  }

  lemma ConnectedRemoved(live: map<nat, Registration>, cancelled: set<nat>, r: nat)
    ensures Connected(live - {r}, cancelled + {r}) == Connected(live, cancelled) - {r}
  {
  }

  lemma OneFewer(live: map<nat, Registration>, r: nat)
    requires r in live
    ensures |live| == |live - {r}| + 1
  {
    assert live.Keys == (live - {r}).Keys + {r};
  }

  class Hub {
    const maxStreams: int
    var connections: int
    var byAccount: Index
    var bySession: Index
    var byOrg: Index
    var shutdown: bool
    var cancelled: set<nat>            // registrations whose context was cancelled
    ghost var live: map<nat, Registration>

    ghost predicate Valid()
      reads this
    {
      && connections == |live|
      && Indexes(byAccount, live, ByAccount)
      && Indexes(bySession, live, BySession)
      && Indexes(byOrg, live, ByOrganization)
    }

    /** The connections as SessionStreams sees them. */
    ghost function View(): map<nat, SS.Connection>
      reads this
    {
      Connected(live, cancelled)
    }

    constructor (maxStreams: int)
      ensures Valid() && View() == map[] && !shutdown && this.maxStreams == maxStreams
    {
      this.maxStreams := maxStreams;
      connections, byAccount, bySession, byOrg, shutdown := 0, map[], map[], map[], false;
      cancelled, live := {}, map[];
    }

    lemma AccountBucket(account: nat)
      requires Valid()
      ensures Bucket(byAccount, account) == SS.OfAccount(View(), account) && |View()| == connections
    {
      var connected := SS.OfAccount(View(), account);
      forall r ensures r in Bucket(byAccount, account) <==> r in connected {
      }
      assert View().Keys == live.Keys;
      assert |View()| == |View().Keys| && |live| == |live.Keys|;
    }

    /** Both limits and the addition are decided under one lock, so the
        registration happens exactly when SessionStreams admits it. */
    method Register(r: nat, reg: Registration, limit: int) returns (outcome: Outcome)
      requires Valid() && r !in live && r !in cancelled
      modifies this`connections, this`byAccount, this`bySession, this`byOrg, this`live
      ensures Valid()
      ensures outcome.Registered? <==>
                SS.Admits(SS.Config(Max(maxStreams, 0), Max(limit, 0)), shutdown, old(View()), reg.account)
      ensures outcome.Registered? ==>
                View() == old(View())[r := SS.Connection(reg.session, reg.account, false)] && live == old(live)[r := reg]
      ensures !outcome.Registered? ==> View() == old(View()) && live == old(live)
      ensures shutdown ==> outcome.ShuttingDown?
    {
      AccountBucket(reg.account);
      if shutdown {
        return ShuttingDown;
      }
      if connections >= maxStreams || |Bucket(byAccount, reg.account)| >= limit {
        return TooManyConnections;
      }
      hide Indexes, Connected;
      Insert(r, reg);
      return Registered;
    }

    method Insert(r: nat, reg: Registration)
      requires Valid() && r !in live && r !in cancelled
      modifies this`connections, this`byAccount, this`bySession, this`byOrg, this`live
      ensures Valid() && live == old(live)[r := reg]
      ensures View() == old(View())[r := SS.Connection(reg.session, reg.account, false)]
    {
      hide Indexes, Add, Connected;
      AddIndexes(byAccount, live, ByAccount, r, reg);
      AddIndexes(bySession, live, BySession, r, reg);
      AddIndexes(byOrg, live, ByOrganization, r, reg);
      ConnectedAdded(live, cancelled, r, reg);
      assert live[r := reg].Keys == live.Keys + {r};
      byAccount := Add(byAccount, reg.account, r);
      bySession := Add(bySession, reg.session, r);
      byOrg := Add(byOrg, reg.organization, r);
      connections := connections + 1;
      live := live[r := reg];
    }

    /** unregister frees the slot and ends the context; again it does nothing. */
    method Unregister(r: nat, reg: Registration)
      requires Valid() && (r in live ==> live[r] == reg)
      modifies this`connections, this`byAccount, this`bySession, this`byOrg, this`live, this`cancelled
      ensures Valid() && View() == old(View()) - {r} && live == old(live) - {r}
      ensures r in old(live) ==> r in cancelled
      ensures r !in old(live) ==> connections == old(connections) && byAccount == old(byAccount) && cancelled == old(cancelled)
    {
      InBucket(r, reg);
      hide Indexes, Bucket, Connected;
      if r in Bucket(byAccount, reg.account) {
        Take(r, reg);
      } else {
        assert live - {r} == live && View() - {r} == View();
      }
    }

    method Take(r: nat, reg: Registration)
      requires Valid() && r in live && live[r] == reg
      modifies this`connections, this`byAccount, this`bySession, this`byOrg, this`live, this`cancelled
      ensures Valid() && View() == old(View()) - {r} && live == old(live) - {r} && cancelled == old(cancelled) + {r}
    {
      hide Indexes, Remove, Connected;
      RemoveIndexes(byAccount, live, ByAccount, r);
      RemoveIndexes(bySession, live, BySession, r);
      RemoveIndexes(byOrg, live, ByOrganization, r);
      ConnectedRemoved(live, cancelled, r);
      OneFewer(live, r);
      byAccount := Remove(byAccount, reg.account, r);
      bySession := Remove(bySession, reg.session, r);
      byOrg := Remove(byOrg, reg.organization, r);
      connections := connections - 1;
      live := live - {r};
      cancelled := cancelled + {r};
    }

    lemma InBucket(r: nat, reg: Registration)
      requires Valid() && (r in live ==> live[r] == reg)
      ensures r in live <==> r in Bucket(byAccount, reg.account)
      ensures r !in live ==> r !in View()
    {
    }

    /** Cancels every context of a set, one by one. */
    method CancelEach(targets: set<nat>)
      modifies this`cancelled
      ensures cancelled == old(cancelled) + targets
    {
      var left := targets;
      while left != {}
        invariant left <= targets && cancelled == old(cancelled) + (targets - left)
        decreases |left|
      {
        var r :| r in left;
        cancelled := cancelled + {r};
        left := left - {r};
      }
    }

    method CancelSession(session: nat)
      requires Valid()
      modifies this`cancelled
      ensures Valid() && View() == SS.CancelledSession(old(View()), session)
    {
      CancelEach(Bucket(bySession, session));
    }

    method CancelAccount(account: nat)
      requires Valid()
      modifies this`cancelled
      ensures Valid() && View() == SS.CancelledAccount(old(View()), account)
    {
      CancelEach(Bucket(byAccount, account));
    }

    /** Cancels everyone, account by account, and admits nobody afterwards. */
    method CancelAll()
      requires Valid()
      modifies this`cancelled, this`shutdown
      ensures Valid() && shutdown && View() == SS.CancelledAll(old(View()))
    {
      shutdown := true;
      var left := byAccount.Keys;
      while left != {}
        invariant Valid() && shutdown && left <= byAccount.Keys
        invariant old(cancelled) <= cancelled
        invariant forall k, r :: k in byAccount && k !in left && r in byAccount[k] ==> r in cancelled
        decreases |left|
      {
        var account :| account in left;
        CancelEach(byAccount[account]);
        left := left - {account};
      }
      forall r | r in live ensures r in cancelled {
        assert r in Bucket(byAccount, live[r].account);
      }
    }

    /** RaiseIfActive's guard: the organisation still has a connection. */
    method Active(organization: nat) returns (active: bool)
      requires Valid()
      ensures active <==> exists r :: r in live && live[r].organization == organization
    {
      active := |Bucket(byOrg, organization)| > 0;
      if active {
        var r :| r in Bucket(byOrg, organization);
        assert r in live && live[r].organization == organization;
      } else {
        assert Bucket(byOrg, organization) == {};
      }
    }
  }
}
