/**
 * Sequences of key/value pairs written one after another into a map, as the
 * transform's loops do with `m[k] = v`: a later pair overwrites an earlier one
 * with the same key.
 */
module Assoc {
  import opened Wrappers

  /** The keys that occur in `pairs`. */
  function KeySet<K, V>(pairs: seq<(K, V)>): set<K> {
    set i | 0 <= i < |pairs| :: pairs[i].0
  }

  /** The value of the last pair with key `k`, if any: the reference meaning of "last wins". */
  function Lookup<K(==), V>(pairs: seq<(K, V)>, k: K): Option<V> {
    if pairs == [] then None
    else if pairs[|pairs| - 1].0 == k then Some(pairs[|pairs| - 1].1)
    else Lookup(pairs[..|pairs| - 1], k)
  }

  /** Writing the pairs into an empty map, in order. */
  function ToMap<K(==), V>(pairs: seq<(K, V)>): map<K, V> {
    if pairs == [] then map[]
    else ToMap(pairs[..|pairs| - 1])[pairs[|pairs| - 1].0 := pairs[|pairs| - 1].1]
  }

  /** A key has a value exactly when it occurs in the pairs. */
  lemma {:induction false} LookupDefined<K, V>(pairs: seq<(K, V)>, k: K)
    ensures Lookup(pairs, k).Some? <==> k in KeySet(pairs)
  {
    if pairs != [] {
      var init := pairs[..|pairs| - 1];
      LookupDefined(init, k);
      assert KeySet(pairs) == KeySet(init) + {pairs[|pairs| - 1].0} by {
        forall x | x in KeySet(pairs) ensures x in KeySet(init) + {pairs[|pairs| - 1].0} {
          var i :| 0 <= i < |pairs| && pairs[i].0 == x;
          if i < |pairs| - 1 { assert init[i] == pairs[i]; }
        }
        forall x | x in KeySet(init) ensures x in KeySet(pairs) {
          var i :| 0 <= i < |init| && init[i].0 == x;
          assert pairs[i] == init[i];
        }
      }
    }
  }

  /** The value found for the key of pair i is pair i's own value when no later pair has that key. */
  lemma {:induction false} LookupLast<K, V>(pairs: seq<(K, V)>, i: nat)
    requires i < |pairs|
    requires forall j | i < j < |pairs| :: pairs[j].0 != pairs[i].0
    ensures Lookup(pairs, pairs[i].0) == Some(pairs[i].1)
    decreases |pairs|
  {
    if i < |pairs| - 1 {
      var init := pairs[..|pairs| - 1];
      assert init[i] == pairs[i];
      LookupLast(init, i);
    }
  }

  /** Writing the pairs in order leaves exactly the last value of every key that occurs. */
  lemma {:induction false} ToMapLastWins<K, V>(pairs: seq<(K, V)>, k: K)
    ensures k in ToMap(pairs) <==> Lookup(pairs, k).Some?
    ensures k in ToMap(pairs) ==> ToMap(pairs)[k] == Lookup(pairs, k).value
  {
    if pairs != [] {
      ToMapLastWins(pairs[..|pairs| - 1], k);
    }
  }

  /** The map's key set is the set of keys that occur. */
  lemma ToMapKeys<K, V>(pairs: seq<(K, V)>)
    ensures ToMap(pairs).Keys == KeySet(pairs)
  {
    forall k ensures k in ToMap(pairs) <==> k in KeySet(pairs) {
      ToMapLastWins(pairs, k);
      LookupDefined(pairs, k);
    }
  }

  /** Appending one pair to the sequence is one more write into the map. */
  lemma ToMapSnoc<K, V>(pairs: seq<(K, V)>, i: nat)
    requires i < |pairs|
    ensures ToMap(pairs[..i + 1]) == ToMap(pairs[..i])[pairs[i].0 := pairs[i].1]
  {
    assert pairs[..i + 1][..i] == pairs[..i];
  }
}
