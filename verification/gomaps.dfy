/**
 * Iterating over a Go map visits every key once, in an order the runtime
 * picks. A model of such a loop takes that order as a parameter and asks
 * only that it enumerate the keys.
 */
module GoMaps {
  /** `order` lists every key of the map exactly once. */
  predicate IsOrder<K>(order: seq<K>, keys: set<K>)
  {
    (forall i, j :: 0 <= i < j < |order| ==> order[i] != order[j])
    && (forall i :: 0 <= i < |order| ==> order[i] in keys)
    && (forall k :: k in keys ==> k in order)
  }

  /** An order of a map's keys is as long as the map. */
  lemma {:induction false} OrderLength<K>(order: seq<K>, keys: set<K>)
    requires IsOrder(order, keys)
    ensures |order| == |keys|
    decreases |order|
  {
    if |order| > 0 {
      var rest := order[1..];
      assert forall k :: k in keys - {order[0]} ==> k in rest by {
        forall k | k in keys - {order[0]}
          ensures k in rest
        {
          var i :| 0 <= i < |order| && order[i] == k;
          assert i != 0;
          assert rest[i - 1] == k;
        }
      }
      assert forall i :: 0 <= i < |rest| ==> rest[i] in keys - {order[0]} by {
        forall i | 0 <= i < |rest|
          ensures rest[i] in keys - {order[0]}
        {
          assert rest[i] == order[i + 1];
        }
      }
      OrderLength(rest, keys - {order[0]});
    } else {
      assert forall k :: k !in keys;
      assert keys == {};
    }
  }
}
