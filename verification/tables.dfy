/**
 * JavaScript object literals used as dictionaries.  Their entries are kept as a sequence of
 * key/value pairs in insertion order, which is the order `Object.entries` visits them.
 */
module Tables {
  import opened Wrappers

  /** `table[key]` for a key that is present, `undefined` (`None`) otherwise. */
  function Lookup<V>(table: seq<(string, V)>, key: string): (r: Option<V>)
    ensures r.None? <==> forall i :: 0 <= i < |table| ==> table[i].0 != key
    ensures r.Some? ==> exists i :: 0 <= i < |table| && table[i] == (key, r.value)
  {
    if table == [] then None
    else if table[0].0 == key then Some(table[0].1)
    else Lookup(table[1..], key)
  }

  /** `Object.keys(table)`. */
  function Keys<V>(table: seq<(string, V)>): (ks: seq<string>)
    ensures |ks| == |table|
    ensures forall i :: 0 <= i < |table| ==> ks[i] == table[i].0
  {
    if table == [] then [] else [table[0].0] + Keys(table[1..])
  }

  /** Keys listed once each. */
  predicate DistinctKeys<V>(table: seq<(string, V)>) {
    forall i, j :: 0 <= i < j < |table| ==> table[i].0 != table[j].0
  }

  /** The set of keys. */
  function KeySet<V>(table: seq<(string, V)>): (ks: set<string>)
    ensures forall k :: k in ks <==> Lookup(table, k).Some?
  {
    set i | 0 <= i < |table| :: table[i].0
  }

  /** A key that is present is found with the value of its first entry. */
  lemma {:induction false} LookupFirst<V>(table: seq<(string, V)>, i: nat)
    requires i < |table|
    requires forall j :: 0 <= j < i ==> table[j].0 != table[i].0
    ensures Lookup(table, table[i].0) == Some(table[i].1)
  {
    if i > 0 {
      LookupFirst(table[1..], i - 1);
    }
  }
}
