/** Lookup in a list of name/value pairs where the first pair with a name wins: the members of a
    JSON object and the decoded pairs behind `URLSearchParams.get`. */
module Assoc {
  import opened Wrappers

  /** The value of the first pair called `key`, or `None`. */
  function Lookup<V>(pairs: seq<(string, V)>, key: string): (r: Option<V>)
    ensures r.None? <==> forall i :: 0 <= i < |pairs| ==> pairs[i].0 != key
    ensures r.Some? ==> exists i :: 0 <= i < |pairs| && pairs[i] == (key, r.value)
                                        && forall j :: 0 <= j < i ==> pairs[j].0 != key
  {
    if pairs == [] then None
    else if pairs[0].0 == key then Some(pairs[0].1)
    else
      var r := Lookup(pairs[1..], key);
      if r.Some? then
        ghost var i :| 0 <= i < |pairs[1..]| && pairs[1..][i] == (key, r.value)
                       && forall j :: 0 <= j < i ==> pairs[1..][j].0 != key;
        assert pairs[i + 1] == (key, r.value);
        r
      else r
  }

  /** Skipping a pair whose name has another length than the key. */
  lemma LookupPast<V>(pairs: seq<(string, V)>, key: string)
    requires |pairs| > 0 && |pairs[0].0| != |key|
    ensures Lookup(pairs, key) == Lookup(pairs[1..], key)
  {
  }
}
