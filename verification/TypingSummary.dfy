module TypingSummary {
  /** Who types at one place (internal/typing/summary.go): the members with their
      number of activities, the order in which they started, and the first four
      names of that order, from which any viewer can be shown three others. */

  import opened Common

  datatype Typist = Typist(member: nat, name: nat)

  /** `since` is history the proofs use: the generation the member started at. */
  datatype Activity = Activity(typist: Typist, count: int, since: nat)

  /** `starts` holds the members, newest start first; `latest` the candidates. */
  datatype Summary = Summary(generation: nat, members: map<nat, Activity>, starts: seq<nat>, latest: seq<Typist>)

  const EMPTY := Summary(0, map[], [], [])

  const CANDIDATES := 4

  function Names(members: map<nat, Activity>, starts: seq<nat>): seq<Typist> {
    if starts == [] then []
    else (if starts[0] in members then [members[starts[0]].typist] else []) + Names(members, starts[1..])
  }

  /** changed: the candidates are the newest four. */
  function Refreshed(p: Summary, generation: nat): Summary {
    p.(generation := generation, latest := Names(p.members, p.starts[..Min(|p.starts|, CANDIDATES)]))
  }

  function Started(p: Summary, typist: Typist, generation: nat): Summary {
    var m := typist.member;
    if m in p.members then p.(members := p.members[m := p.members[m].(count := p.members[m].count + 1)])
    else Refreshed(p.(members := p.members[m := Activity(typist, 1, generation)], starts := [m] + p.starts), generation)
  }

  function Stopped(p: Summary, m: nat, generation: nat): Summary
    requires m in p.members
  {
    var count := p.members[m].count - 1;
    if count != 0 then p.(members := p.members[m := p.members[m].(count := count)])
    else Refreshed(p.(members := p.members - {m}, starts := Without(p.starts, m)), generation)
  }

  // ----- what starts and stops keep -----

  ghost predicate NewestFirst(starts: seq<nat>, members: map<nat, Activity>) {
    forall i, j :: 0 <= i < j < |starts| && starts[i] in members && starts[j] in members
                   ==> members[starts[i]].since > members[starts[j]].since
  }

  ghost predicate ActivityOk(m: nat, a: Activity, generation: nat) {
    a.typist.member == m && a.count > 0 && a.since <= generation
  }

  ghost predicate SummaryOk(p: Summary) {
    && Distinct(p.starts) && NewestFirst(p.starts, p.members)
    && (forall m :: m in p.starts <==> m in p.members)
    && (forall m :: m in p.members ==> ActivityOk(m, p.members[m], p.generation))
    && p.latest == Names(p.members, p.starts[..Min(|p.starts|, CANDIDATES)])
  }

  function Count(p: Summary, m: nat): int {
    if m in p.members then p.members[m].count else 0
  }

  lemma {:induction false} NamesSame(a: map<nat, Activity>, b: map<nat, Activity>, starts: seq<nat>)
    requires forall m :: m in starts ==> m in a && m in b && a[m].typist == b[m].typist
    ensures Names(a, starts) == Names(b, starts)
  {
    if starts != [] {
      assert starts[0] in starts && forall m :: m in starts[1..] ==> m in starts;
      NamesSame(a, b, starts[1..]);
    }
  }

  /** One more or one fewer activity of a member who stays. */
  lemma Recounted(p: Summary, m: nat, count: int)
    requires SummaryOk(p) && m in p.members && count > 0
    ensures SummaryOk(p.(members := p.members[m := p.members[m].(count := count)]))
  {
    var members := p.members[m := p.members[m].(count := count)];
    NamesSame(p.members, members, p.starts[..Min(|p.starts|, CANDIDATES)]);
    assert NewestFirst(p.starts, members);
  }

  lemma JoinedOrder(p: Summary, typist: Typist, generation: nat)
    requires SummaryOk(p) && typist.member !in p.members && p.generation < generation
    ensures var starts, members := [typist.member] + p.starts, p.members[typist.member := Activity(typist, 1, generation)];
            && Distinct(starts) && NewestFirst(starts, members) && (forall m :: m in starts <==> m in members)
  {
    hide Names;
    var starts, members := [typist.member] + p.starts, p.members[typist.member := Activity(typist, 1, generation)];
    assert typist.member !in p.starts;
    assert starts[1..] == p.starts;
    forall m ensures m in starts <==> m in members {
      assert m in starts <==> m == starts[0] || m in starts[1..];
    }
    forall i, j | 0 <= i < j < |starts| ensures starts[i] != starts[j] && members[starts[i]].since > members[starts[j]].since {
      assert starts[j] == p.starts[j - 1] && p.starts[j - 1] in p.starts;
      assert ActivityOk(starts[j], p.members[starts[j]], p.generation);
      if i > 0 {
        assert starts[i] == p.starts[i - 1] && p.starts[i - 1] in p.starts;
      }
    }
  }

  lemma StartedOk(p: Summary, typist: Typist, generation: nat)
    requires SummaryOk(p) && p.generation < generation
    ensures SummaryOk(Started(p, typist, generation)) && Started(p, typist, generation).generation <= generation
    ensures var q, m := Started(p, typist, generation), typist.member;
            && q.members.Keys == p.members.Keys + {m} && Count(q, m) == Count(p, m) + 1
            && (forall x :: x != m ==> Count(q, x) == Count(p, x))
  {
    hide Names, NewestFirst;
    var m := typist.member;
    if m in p.members {
      Recounted(p, m, p.members[m].count + 1);
    } else {
      JoinedOrder(p, typist, generation);
    }
  }

  lemma {:induction false} WithoutOrder(starts: seq<nat>, members: map<nat, Activity>, m: nat)
    requires NewestFirst(starts, members) && forall x :: x in starts ==> x in members
    ensures NewestFirst(Without(starts, m), members - {m})
  {
    if starts != [] {
      var rest := starts[1..];
      assert forall x :: x in rest ==> x in starts;
      assert forall k :: 0 <= k < |rest| ==> rest[k] == starts[k + 1];
      WithoutOrder(rest, members, m);
      WithoutElements(rest, m);
      if starts[0] != m {
        var kept := Without(rest, m);
        assert Without(starts, m) == [starts[0]] + kept;
        forall j | 0 <= j < |kept| ensures members[starts[0]].since > members[kept[j]].since {
          assert kept[j] in rest;
          var k :| 0 <= k < |rest| && rest[k] == kept[j];
          assert starts[0] in members && starts[k + 1] == kept[j];
        }
      }
    }
  }

  lemma StoppedOk(p: Summary, m: nat, generation: nat)
    requires SummaryOk(p) && m in p.members && p.generation < generation
    ensures SummaryOk(Stopped(p, m, generation)) && Stopped(p, m, generation).generation <= generation
    ensures var q := Stopped(p, m, generation);
            && q.members.Keys == (if p.members[m].count == 1 then p.members.Keys - {m} else p.members.Keys)
            && Count(q, m) == Count(p, m) - 1 && (forall x :: x != m ==> Count(q, x) == Count(p, x))
  {
    hide Names, NewestFirst;
    if p.members[m].count != 1 {
      Recounted(p, m, p.members[m].count - 1);
    } else {
      WithoutElements(p.starts, m);
      WithoutDistinct(p.starts, m);
      WithoutOrder(p.starts, p.members, m);
    }
  }

  // ----- what a viewer sees -----

  function NotViewer(typists: seq<Typist>, viewer: nat): seq<Typist> {
    if typists == [] then []
    else (if typists[0].member == viewer then [] else [typists[0]]) + NotViewer(typists[1..], viewer)
  }

  function FirstThree(typists: seq<Typist>): seq<Typist> {
    typists[..Min(|typists|, 3)]
  }

  /** Everyone typing at a place, newest first. */
  function Everyone(p: Summary): seq<Typist> {
    Names(p.members, p.starts)
  }

  lemma {:induction false} NamesOfAll(members: map<nat, Activity>, starts: seq<nat>)
    requires forall m :: m in starts ==> m in members && members[m].typist.member == m
    ensures |Names(members, starts)| == |starts|
    ensures forall k :: 0 <= k < |starts| ==> Names(members, starts)[k].member == starts[k]
    ensures forall n :: 0 <= n <= |starts| ==> Names(members, starts[..n]) == Names(members, starts)[..n]
  {
    if starts != [] {
      var rest := starts[1..];
      assert forall m :: m in rest ==> m in starts;
      NamesOfAll(members, rest);
      forall n | 0 <= n <= |starts| ensures Names(members, starts[..n]) == Names(members, starts)[..n] {
        if n > 0 {
          assert starts[..n][1..] == rest[..n - 1] && starts[..n][0] == starts[0];
        }
      }
    }
  }

  /** The viewer takes at most one place. */
  lemma {:induction false} NotViewerSize(typists: seq<Typist>, viewer: nat)
    requires forall i, j :: 0 <= i < j < |typists| ==> typists[i].member != typists[j].member
    ensures |NotViewer(typists, viewer)| == |typists| - if exists t :: t in typists && t.member == viewer then 1 else 0
  {
    if typists != [] {
      var rest := typists[1..];
      NotViewerSize(rest, viewer);
      assert typists == [typists[0]] + rest;
      if typists[0].member == viewer {
        assert typists[0] in typists;
        forall t | t in rest ensures t.member != viewer {
          var k :| 0 <= k < |rest| && rest[k] == t;
          assert typists[k + 1] == t;
        }
      }
    }
  }

  lemma {:induction false} NotViewerJoin(a: seq<Typist>, b: seq<Typist>, viewer: nat)
    ensures NotViewer(a + b, viewer) == NotViewer(a, viewer) + NotViewer(b, viewer)
  {
    if a == [] {
      assert a + b == b;
    } else {
      assert (a + b)[1..] == a[1..] + b;
      NotViewerJoin(a[1..], b, viewer);
    }
  }

  lemma {:induction false} NamesJoin(members: map<nat, Activity>, a: seq<nat>, b: seq<nat>)
    ensures Names(members, a + b) == Names(members, a) + Names(members, b)
  {
    if a == [] {
      assert a + b == b;
    } else {
      assert (a + b)[1..] == a[1..] + b;
      NamesJoin(members, a[1..], b);
    }
  }

  lemma EveryoneOnce(p: Summary)
    requires SummaryOk(p)
    ensures |Everyone(p)| == |p.starts| == |p.members|
    ensures p.latest == Everyone(p)[..Min(|p.starts|, CANDIDATES)]
    ensures forall k :: 0 <= k < |p.starts| ==> Everyone(p)[k].member == p.starts[k]
  {
    hide NewestFirst;
    forall m | m in p.starts ensures m in p.members && p.members[m].typist.member == m {
      assert ActivityOk(m, p.members[m], p.generation);
    }
    NamesOfAll(p.members, p.starts);
    DistinctSize(p.starts);
    assert Elements(p.starts) == p.members.Keys;
  }

  lemma PrefixShown(all: seq<Typist>, viewer: nat)
    requires forall i, j :: 0 <= i < j < |all| ==> all[i].member != all[j].member
    ensures FirstThree(NotViewer(all[..Min(|all|, CANDIDATES)], viewer)) == FirstThree(NotViewer(all, viewer))
  {
    hide NotViewer;
    var n := Min(|all|, CANDIDATES);
    assert all == all[..n] + all[n..];
    NotViewerJoin(all[..n], all[n..], viewer);
    NotViewerSize(all[..n], viewer);
    if |all| <= CANDIDATES {
      assert all[..n] == all;
    }
  }

  /** Four candidates are enough: what a viewer is shown is the first three of
      everyone but themselves, newest first, and the rest are counted. */
  lemma FourSuffice(p: Summary, viewer: nat)
    requires SummaryOk(p)
    ensures FirstThree(NotViewer(p.latest, viewer)) == FirstThree(NotViewer(Everyone(p), viewer))
    ensures |p.members| - (if viewer in p.members then 1 else 0) == |NotViewer(Everyone(p), viewer)|
  {
    hide NotViewer, Names, FirstThree, NewestFirst, Everyone;
    var all := Everyone(p);
    EveryoneOnce(p);
    forall i, j | 0 <= i < j < |all| ensures all[i].member != all[j].member {
      assert all[i].member == p.starts[i] && all[j].member == p.starts[j];
    }
    PrefixShown(all, viewer);
    NotViewerSize(all, viewer);
    if viewer in p.members {
      assert viewer in p.starts;
      var k :| 0 <= k < |p.starts| && p.starts[k] == viewer;
      assert all[k] in all && all[k].member == viewer;
    }
  }
}
