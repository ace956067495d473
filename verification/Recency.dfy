module Recency {
  /** Lists in the order of last use: what moving to the front, dropping and
      cutting the end keep of it. */

  import opened Common

  /** One more than the last step that used the key, or 0; `uses[i]` is the key
      that step i used, if any. */
  function LastUse<K(==)>(uses: seq<Option<K>>, key: K): nat {
    if uses == [] then 0
    else if uses[|uses| - 1] == Some(key) then |uses| else LastUse(uses[..|uses| - 1], key)
  }

  /** Every listed key was used, and the list is from the latest use down. */
  ghost predicate ByLastUse<K>(order: seq<K>, uses: seq<Option<K>>) {
    && (forall k :: k in order ==> LastUse(uses, k) > 0)
    && forall i, j :: 0 <= i < j < |order| ==> LastUse(uses, order[i]) > LastUse(uses, order[j])
  }

  lemma {:induction false} LastUseBound<K>(uses: seq<Option<K>>, key: K)
    ensures LastUse(uses, key) <= |uses|
    ensures LastUse(uses, key) > 0 ==> uses[LastUse(uses, key) - 1] == Some(key)
    ensures forall i :: LastUse(uses, key) <= i < |uses| ==> uses[i] != Some(key)
  {
    if uses != [] && uses[|uses| - 1] != Some(key) {
      LastUseBound(uses[..|uses| - 1], key);
      assert forall i :: 0 <= i < |uses| - 1 ==> uses[..|uses| - 1][i] == uses[i];
    }
  }

  lemma UsedNow<K>(uses: seq<Option<K>>, use: Option<K>, key: K)
    ensures LastUse(uses + [use], key) == if use == Some(key) then |uses| + 1 else LastUse(uses, key)
  {
    assert (uses + [use])[..|uses|] == uses;
  }

  /** A step that uses nothing, or a key that is not listed. */
  lemma NotUsed<K>(order: seq<K>, uses: seq<Option<K>>, use: Option<K>)
    requires ByLastUse(order, uses) && (use.Some? ==> use.value !in order)
    ensures ByLastUse(order, uses + [use])
  {
    hide LastUse;
    forall k | k in order ensures LastUse(uses + [use], k) == LastUse(uses, k) {
      UsedNow(uses, use, k);
    }
    assert forall i :: 0 <= i < |order| ==> order[i] in order;
  }

  lemma {:induction false} DroppedFrom<K>(order: seq<K>, uses: seq<Option<K>>, key: K)
    requires forall k :: k in order ==> LastUse(uses, k) > 0
    ensures forall k :: k in Without(order, key) ==> LastUse(uses, k) > 0
  {
    hide LastUse;
    forall i | 0 <= i < |Without(order, key)| ensures LastUse(uses, Without(order, key)[i]) > 0 {
      InWithout(order, key, Without(order, key)[i]);
    }
  }

  lemma {:induction false} DroppedKey<K>(order: seq<K>, uses: seq<Option<K>>, key: K)
    requires ByLastUse(order, uses)
    ensures ByLastUse(Without(order, key), uses)
  {
    hide LastUse;
    DroppedFrom(order, uses, key);
    if order != [] {
      var rest := order[1..];
      assert order == [order[0]] + rest;
      assert forall i :: 0 <= i < |rest| ==> rest[i] == order[i + 1];
      DroppedKey(rest, uses, key);
      if order[0] != key {
        var kept := Without(rest, key);
        assert Without(order, key) == [order[0]] + kept;
        forall j | 0 <= j < |kept| ensures LastUse(uses, order[0]) > LastUse(uses, kept[j]) {
          InWithout(rest, key, kept[j]);
          var k :| 0 <= k < |rest| && rest[k] == kept[j];
          assert order[k + 1] == kept[j];
        }
      }
    }
  }

  /** The key used now goes to the front. */
  lemma UsedFirst<K>(order: seq<K>, uses: seq<Option<K>>, key: K)
    requires ByLastUse(order, uses) && key !in order
    ensures ByLastUse([key] + order, uses + [Some(key)])
  {
    hide LastUse;
    UsedNow(uses, Some(key), key);
    forall k | k in order ensures LastUse(uses + [Some(key)], k) == LastUse(uses, k) <= |uses| {
      UsedNow(uses, Some(key), k);
      LastUseBound(uses, k);
    }
    assert forall i :: 0 <= i < |order| ==> order[i] in order;
  }

  /** The first keys are those used latest. */
  lemma LatestFit<K>(order: seq<K>, uses: seq<Option<K>>, n: nat)
    requires ByLastUse(order, uses) && n <= |order|
    ensures ByLastUse(order[..n], uses)
    ensures forall i, k :: n <= i < |order| && k in order[..n] ==> LastUse(uses, order[i]) < LastUse(uses, k)
  {
    hide LastUse;
    assert forall k :: k in order[..n] ==> k in order;
  }
}
