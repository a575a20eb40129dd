/**
 * The in-memory subscription registry of helpers/dbHelper.js: a module-level
 * JavaScript `Map` from subscription id to the id of the account that owns it.
 * A `Map` iterates in insertion order; re-setting an existing key keeps its
 * position, deleting a key removes it, and adding it again puts it last.
 * The model keeps the key/value association in `storage` and that order in `order`.
 */
module DbHelper {
  import opened Wrappers

  /** The record getSubscription hands back. */
  datatype Subscription = Subscription(subscriptionId: string, userAccountId: string)

  /** No id appears twice. */
  predicate Distinct(s: seq<string>) {
    forall i, j :: 0 <= i < j < |s| ==> s[i] != s[j]
  }

  /** xs can be obtained from ys by dropping elements, keeping the rest in order. */
  predicate SubsequenceOf(xs: seq<string>, ys: seq<string>)
    decreases |ys|
  {
    if xs == [] then true
    else if ys == [] then false
    else if xs[0] == ys[0] then SubsequenceOf(xs[1..], ys[1..])
    else SubsequenceOf(xs, ys[1..])
  }

  /** The map and its iteration order describe the same keys, each once. */
  predicate Tracks(storage: map<string, string>, order: seq<string>) {
    && Distinct(order)
    && (forall k :: k in storage ==> k in order)
    && (forall k :: k in order ==> k in storage)
  }

  /** Array.prototype.filter over a sequence of keys. */
  function Filter(s: seq<string>, keep: string -> bool): seq<string>
  {
    if s == [] then [] else (if keep(s[0]) then [s[0]] else []) + Filter(s[1..], keep)
  }

  /** getSubscription on a storage value: a stored owner that is falsy (the empty string) reads as absent. */
  function Lookup(storage: map<string, string>, subscriptionId: string): Option<Subscription>
  {
    if subscriptionId in storage && storage[subscriptionId] != ""
    then Some(Subscription(subscriptionId, storage[subscriptionId]))
    else None
  }

  /** The keys, in iteration order, whose stored owner is strictly equal to `userAccountId`. */
  function OwnedBy(storage: map<string, string>, order: seq<string>, userAccountId: string): seq<string>
  {
    Filter(order, k => k in storage && storage[k] == userAccountId)
  }

  /** The iteration order once `subscriptionId` has been deleted from the map. */
  function Without(order: seq<string>, subscriptionId: string): seq<string>
  {
    Filter(order, k => k != subscriptionId)
  }

  lemma DistinctCons(x: string, s: seq<string>)
    requires Distinct(s) && x !in s
    ensures Distinct([x] + s)
  {
  }

  /** A filter keeps exactly the elements it is asked to keep, each as often as before, in their old order. */
  lemma {:induction false} FilterProperties(s: seq<string>, keep: string -> bool)
    ensures forall x :: x in Filter(s, keep) <==> x in s && keep(x)
    ensures Distinct(s) ==> Distinct(Filter(s, keep))
    ensures SubsequenceOf(Filter(s, keep), s)
  {
    if s != [] {
      var rest := Filter(s[1..], keep);
      FilterProperties(s[1..], keep);
      assert Filter(s, keep) == (if keep(s[0]) then [s[0]] else []) + rest;
      forall x ensures x in Filter(s, keep) <==> x in s && keep(x) {
        assert x in s <==> x == s[0] || x in s[1..];
      }
      if Distinct(s) {
        assert Distinct(s[1..]) by {
          forall i, j | 0 <= i < j < |s[1..]| ensures s[1..][i] != s[1..][j] {
            assert s[1..][i] == s[i + 1] && s[1..][j] == s[j + 1];
          }
        }
        if keep(s[0]) {
          assert s[0] !in s[1..] by {
            forall j | 0 <= j < |s[1..]| ensures s[1..][j] != s[0] {
              assert s[1..][j] == s[j + 1];
            }
          }
          DistinctCons(s[0], rest);
        }
      }
      if keep(s[0]) {
        assert Filter(s, keep)[0] == s[0] && Filter(s, keep)[1..] == rest;
      } else if rest != [] {
        assert rest[0] in rest && keep(rest[0]);
        assert Filter(s, keep) == rest;
      }
    }
  }

  /** Filtering distributes over concatenation. */
  lemma {:induction false} FilterAppend(a: seq<string>, b: seq<string>, keep: string -> bool)
    ensures Filter(a + b, keep) == Filter(a, keep) + Filter(b, keep)
  {
    if a == [] {
      assert a + b == b;
    } else {
      var head := if keep(a[0]) then [a[0]] else [];
      assert (a + b)[0] == a[0] && (a + b)[1..] == a[1..] + b;
      FilterAppend(a[1..], b, keep);
      calc {
        Filter(a + b, keep);
        head + Filter(a[1..] + b, keep);
        head + (Filter(a[1..], keep) + Filter(b, keep));
        (head + Filter(a[1..], keep)) + Filter(b, keep);
      }
    }
  }

  /** Two filters that agree on every element of s keep the same elements. */
  lemma {:induction false} FilterCongruent(s: seq<string>, keep1: string -> bool, keep2: string -> bool)
    requires forall x :: x in s ==> keep1(x) == keep2(x)
    ensures Filter(s, keep1) == Filter(s, keep2)
  {
    if s != [] {
      assert forall x :: x in s[1..] ==> x in s;
      FilterCongruent(s[1..], keep1, keep2);
    }
  }

  /**
   * Scanning after `addSubscription` of a new id: the ids found before keep
   * their order and the new id, when it has the owner asked for, comes last.
   */
  lemma ScanAfterAddingNew(storage: map<string, string>, order: seq<string>,
                           subscriptionId: string, owner: string, userAccountId: string)
    requires Tracks(storage, order) && subscriptionId !in storage
    ensures OwnedBy(storage[subscriptionId := owner], order + [subscriptionId], userAccountId)
         == OwnedBy(storage, order, userAccountId) + (if owner == userAccountId then [subscriptionId] else [])
  {
    var storage' := storage[subscriptionId := owner];
    var keepOld := k => k in storage && storage[k] == userAccountId;
    var keepNew := k => k in storage' && storage'[k] == userAccountId;
    FilterAppend(order, [subscriptionId], keepNew);
    FilterCongruent(order, keepNew, keepOld);
    assert Filter([subscriptionId], keepNew)
        == (if owner == userAccountId then [subscriptionId] else []) + Filter([], keepNew);
  }

  /** The storage Map of helpers/dbHelper.js and the four operations over it. */
  class SubscriptionDb {
    var storage: map<string, string>
    var order: seq<string>

    ghost predicate Valid()
      reads this
    {
      Tracks(storage, order)
    }

    /** The registry starts as an empty map. */
    constructor ()
      ensures Valid()
      ensures storage == map[] && order == []
    {
      storage := map[];
      order := [];
    }

    /** A subscription record for a stored id whose owner is truthy; null otherwise. */
    function GetSubscription(subscriptionId: string): (r: Option<Subscription>)
      reads this
      ensures r.Some? <==> subscriptionId in storage && storage[subscriptionId] != ""
      ensures r.Some? ==> r.value == Subscription(subscriptionId, storage[subscriptionId])
    {
      Lookup(storage, subscriptionId)
    }

    /** Exactly the ids whose owner is `userAccountId`, each once, in insertion order. */
    function GetSubscriptionsByUserAccountId(userAccountId: string): (ids: seq<string>)
      reads this
      requires Valid()
      ensures forall k :: k in ids <==> k in storage && storage[k] == userAccountId
      ensures Distinct(ids)
      ensures SubsequenceOf(ids, order)
    {
      var st := storage;
      FilterProperties(order, k => k in st && st[k] == userAccountId);
      OwnedBy(storage, order, userAccountId)
    }

    /** Sets the owner of `subscriptionId`: inserts a new entry, or overwrites the owner in place. */
    method AddSubscription(subscriptionId: string, userAccountId: string)
      requires Valid()
      modifies this
      ensures Valid()
      ensures storage == old(storage)[subscriptionId := userAccountId]
      ensures order == if subscriptionId in old(storage) then old(order) else old(order) + [subscriptionId]
      ensures userAccountId != "" ==> GetSubscription(subscriptionId) == Some(Subscription(subscriptionId, userAccountId))
      ensures forall k :: k != subscriptionId ==> GetSubscription(k) == old(GetSubscription(k))
    {
      if subscriptionId !in storage {
        DistinctCons(subscriptionId, []);
        assert Distinct(order + [subscriptionId]) by {
          forall i, j | 0 <= i < j < |order| + 1 ensures (order + [subscriptionId])[i] != (order + [subscriptionId])[j] {
            if j == |order| {
              assert order[i] in order;
            }
          }
        }
        order := order + [subscriptionId];
      }
      storage := storage[subscriptionId := userAccountId];
    }

    /** Removes the entry for `subscriptionId`; a no-op for an absent id. */
    method DeleteSubscription(subscriptionId: string)
      requires Valid()
      modifies this
      ensures Valid()
      ensures storage == old(storage) - {subscriptionId}
      ensures order == Without(old(order), subscriptionId)
      ensures GetSubscription(subscriptionId) == None
      ensures forall k :: k != subscriptionId ==> GetSubscription(k) == old(GetSubscription(k))
      ensures subscriptionId !in old(storage) ==> storage == old(storage) && order == old(order)
    {
      FilterProperties(order, k => k != subscriptionId);
      if subscriptionId !in order {
        FilterCongruent(order, k => k != subscriptionId, k => true);
        IdentityFilter(order);
      }
      storage := storage - {subscriptionId};
      order := Without(order, subscriptionId);
    }
  }

  lemma {:induction false} IdentityFilter(s: seq<string>)
    ensures Filter(s, k => true) == s
  {
    if s != [] {
      IdentityFilter(s[1..]);
    }
  }
}
