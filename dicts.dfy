/** Python's `dict` with string keys, as far as the integration relies on it:
    insertion order of the keys, overwriting on a repeated key, and the
    comprehension `{key(x): x for x in xs}`. */
module Dicts {

  /** `keys` is the dict's iteration order, `entries` its mapping. */
  datatype Dict<V> = Dict(keys: seq<string>, entries: map<string, V>) {

    ghost predicate Valid() {
      && (forall i, j :: 0 <= i < j < |keys| ==> keys[i] != keys[j])
      && (forall k :: k in entries <==> k in keys)
    }

    /** `d[k] = v`: a new key goes last, an existing key keeps its place and
        gets the new value. */
    function Insert(k: string, v: V): (d: Dict<V>)
      requires Valid()
      ensures d.Valid() && d.entries == entries[k := v]
      ensures k in entries ==> d.keys == keys
      ensures k !in entries ==> d.keys == keys + [k]
    {
      if k in entries then Dict(keys, entries[k := v]) else Dict(keys + [k], entries[k := v])
    }
  }

  /** `{key(x): x for x in xs}`: every element is stored under its own key. */
  function FromList<V>(xs: seq<V>, key: V -> string): (d: Dict<V>)
    ensures d.Valid()
    ensures forall k :: k in d.entries ==> key(d.entries[k]) == k
    decreases |xs|
  {
    if xs == [] then Dict([], map[])
    else FromList(xs[..|xs| - 1], key).Insert(key(xs[|xs| - 1]), xs[|xs| - 1])
  }

  /** The keys are exactly the keys of the listed elements. */
  lemma {:induction false} FromListKeys<V>(xs: seq<V>, key: V -> string, k: string)
    ensures k in FromList(xs, key).entries <==> exists i :: 0 <= i < |xs| && key(xs[i]) == k
    decreases |xs|
  {
    if xs != [] {
      var init := xs[..|xs| - 1];
      FromListKeys(init, key, k);
      if k in FromList(init, key).entries {
        var i :| 0 <= i < |init| && key(init[i]) == k;
        assert key(xs[i]) == k;
      }
      if exists i :: 0 <= i < |xs| && key(xs[i]) == k {
        var i :| 0 <= i < |xs| && key(xs[i]) == k;
        if i < |init| {
          assert key(init[i]) == k;
        }
      }
    }
  }

  /** A later element with the same key overwrites an earlier one: the value
      stored under a key is the last element carrying it. */
  lemma {:induction false} FromListLastWins<V>(xs: seq<V>, key: V -> string, i: nat)
    requires i < |xs|
    requires forall j :: i < j < |xs| ==> key(xs[j]) != key(xs[i])
    ensures key(xs[i]) in FromList(xs, key).entries
    ensures FromList(xs, key).entries[key(xs[i])] == xs[i]
    decreases |xs|
  {
    var init := xs[..|xs| - 1];
    if i < |xs| - 1 {
      assert init[i] == xs[i];
      FromListLastWins(init, key, i);
    }
  }

  /** Every stored value is one of the listed elements. */
  lemma {:induction false} FromListValues<V>(xs: seq<V>, key: V -> string, k: string)
    requires k in FromList(xs, key).entries
    ensures FromList(xs, key).entries[k] in xs
    decreases |xs|
  {
    var init := xs[..|xs| - 1];
    if k != key(xs[|xs| - 1]) {
      FromListValues(init, key, k);
    }
  }

  /** A list whose elements all share one key yields a dict with that key alone. */
  lemma {:induction false} FromListSingleKey<V>(xs: seq<V>, key: V -> string, k: string)
    requires |xs| > 0 && forall i :: 0 <= i < |xs| ==> key(xs[i]) == k
    ensures FromList(xs, key).keys == [k]
    decreases |xs|
  {
    var init := xs[..|xs| - 1];
    if |init| > 0 {
      FromListSingleKey(init, key, k);
    }
  }
}
