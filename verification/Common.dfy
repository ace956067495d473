module Common {
  /** Small shared vocabulary: optional values and the list operations of the
      least-recently-used lists, with the facts the modules need about them. */

  datatype Option<+T> = None | Some(value: T)

  function Max(a: int, b: int): int {
    if a >= b then a else b
  }

  function Min(a: int, b: int): int {
    if a <= b then a else b
  }

  ghost predicate Distinct<T>(s: seq<T>) {
    forall i, j :: 0 <= i < j < |s| ==> s[i] != s[j]
  }

  ghost function Elements<T>(s: seq<T>): set<T> {
    set x | x in s
  }

  /** The list without x. */
  function Without<T(==)>(s: seq<T>, x: T): seq<T> {
    if s == [] then []
    else if s[0] == x then Without(s[1..], x)
    else [s[0]] + Without(s[1..], x)
  }

  lemma {:induction false} WithoutElements<T>(s: seq<T>, x: T)
    ensures forall y :: y in Without(s, x) <==> y in s && y != x
    ensures |Without(s, x)| <= |s|
  {
    if s != [] {
      WithoutElements(s[1..], x);
      assert s == [s[0]] + s[1..];
    }
  }

  lemma {:induction false} WithoutDistinct<T>(s: seq<T>, x: T)
    requires Distinct(s)
    ensures Distinct(Without(s, x))
    ensures |Without(s, x)| == if x in s then |s| - 1 else |s|
  {
    if s != [] {
      WithoutDistinct(s[1..], x);
      WithoutElements(s[1..], x);
      assert s == [s[0]] + s[1..];
      var rest := Without(s[1..], x);
      assert s[0] !in s[1..];
      if s[0] != x {
        assert forall k :: 0 <= k < |rest| ==> rest[k] in rest;
        assert s[0] !in rest;
        assert Without(s, x) == [s[0]] + rest;
      }
    }
  }

  /** A list without repetitions has as many elements as its set. */
  lemma {:induction false} DistinctSize<T>(s: seq<T>)
    requires Distinct(s)
    ensures |Elements(s)| == |s|
  {
    if s != [] {
      DistinctSize(s[1..]);
      assert s[0] !in Elements(s[1..]);
      assert Elements(s) == Elements(s[1..]) + {s[0]} by {
        assert s == [s[0]] + s[1..];
      }
    } else {
      assert Elements(s) == {};
    }
  }

  lemma InWithout<T>(s: seq<T>, x: T, y: T)
    ensures y in Without(s, x) <==> y in s && y != x
  {
    WithoutElements(s, x);
  }

  lemma ElementsFirst<T>(x: T, rest: seq<T>)
    ensures Elements([x] + rest) == {x} + Elements(rest)
  {
    var all := [x] + rest;
    assert all[0] == x && all[1..] == rest;
    forall y | y in all ensures y in {x} + Elements(rest) {
      var i :| 0 <= i < |all| && all[i] == y;
      assert i > 0 ==> rest[i - 1] == y;
    }
    forall y | y in rest ensures y in all {
      var i :| 0 <= i < |rest| && rest[i] == y;
      assert all[i + 1] == y;
    }
  }

  lemma {:induction false} ElementsWithout<T>(s: seq<T>, x: T)
    ensures Elements(Without(s, x)) == Elements(s) - {x}
  {
    if s != [] {
      assert s == [s[0]] + s[1..];
      ElementsFirst(s[0], s[1..]);
      ElementsWithout(s[1..], x);
      ElementsFirst(s[0], Without(s[1..], x));
    }
  }

  /** A list moved to front, or with a new front, stays free of repetitions. */
  lemma FrontDistinct<T>(s: seq<T>, x: T)
    requires Distinct(s)
    ensures Distinct([x] + Without(s, x))
    ensures Elements([x] + Without(s, x)) == Elements(s) + {x}
  {
    WithoutDistinct(s, x);
    ElementsWithout(s, x);
    var rest := Without(s, x);
    ElementsFirst(x, rest);
    forall i | 0 <= i < |rest| ensures rest[i] != x {
      assert rest[i] in Elements(rest);
    }
  }

  lemma {:induction false} WithoutAbsent<T>(s: seq<T>, x: T)
    requires x !in s
    ensures Without(s, x) == s
  {
    if s != [] {
      WithoutAbsent(s[1..], x);
    }
  }
}
