/**
 * A constant object literal read as its own properties in declaration
 * order: `Object.keys` and property lookup by name.
 */
module Tables {
  import opened Wrappers

  /** `Object.keys`: the property names, in order. */
  function Keys<V>(table: seq<(string, V)>): (ks: seq<string>)
    ensures |ks| == |table|
    ensures forall i :: 0 <= i < |table| ==> ks[i] == table[i].0
  {
    if table == [] then [] else [table[0].0] + Keys(table[1..])
  }

  /** Property lookup by exact name: the value of the first property with that name. */
  function Find<V(==)>(table: seq<(string, V)>, key: string): (r: Option<V>)
    ensures r.None? <==> forall i :: 0 <= i < |table| ==> table[i].0 != key
    ensures r.Some? ==> exists i :: 0 <= i < |table| && table[i] == (key, r.value)
    decreases |table|
  {
    if table == [] then None
    else if table[0].0 == key then
      assert table[0] == (key, table[0].1);
      Some(table[0].1)
    else
      var r := Find(table[1..], key);
      assert forall i :: 1 <= i < |table| ==> table[i] == table[1..][i - 1];
      if r.Some? then
        var i :| 0 <= i < |table[1..]| && table[1..][i] == (key, r.value);
        assert table[i + 1] == (key, r.value);
        r
      else r
  }

  /** The property names are pairwise distinct. */
  predicate DistinctKeys<V>(table: seq<(string, V)>) {
    forall m, n :: 0 <= m < n < |table| ==> table[m].0 != table[n].0
  }

  /** With distinct names, looking up the name of property `i` finds property `i`. */
  lemma {:induction false} FindIndexed<V>(table: seq<(string, V)>, i: nat)
    requires i < |table| && DistinctKeys(table)
    ensures Find(table, table[i].0) == Some(table[i].1)
    decreases i
  {
    if i > 0 {
      var tail := table[1..];
      assert tail[i - 1] == table[i];
      assert DistinctKeys(tail) by {
        forall m, n | 0 <= m < n < |tail| ensures tail[m].0 != tail[n].0 {
          assert tail[m] == table[m + 1] && tail[n] == table[n + 1];
        }
      }
      FindIndexed(tail, i - 1);
      assert table[0].0 != table[i].0;
    }
  }
}
