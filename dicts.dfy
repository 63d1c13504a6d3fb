/**
 * Python's dict comprehension `{k: v for k, v in pairs}` over a sequence of
 * keys and the matching sequence of values: every key becomes an entry, and
 * when a key repeats, its last occurrence decides the value.
 */
module Dicts {

  /** The set of keys listed in `keys`. */
  ghost function KeySet(keys: seq<string>): set<string>
  {
    set k | k in keys
  }

  /** `keys[i]` does not occur again after position i. */
  ghost predicate LastOccurrence(keys: seq<string>, i: int)
    requires 0 <= i < |keys|
  {
    keys[i] !in keys[i + 1..]
  }

  /** Dropping the final key keeps every earlier last occurrence a last
      occurrence, and such a key differs from the one dropped. */
  lemma LastOccurrenceInPrefix(keys: seq<string>, i: int)
    requires 0 <= i < |keys| - 1 && LastOccurrence(keys, i)
    ensures LastOccurrence(keys[..|keys| - 1], i)
    ensures keys[i] != keys[|keys| - 1]
  {
    var n := |keys| - 1;
    assert keys[..n][i + 1..] == keys[i + 1..n];
    assert keys[n] in keys[i + 1..];
  }

  lemma KeySetOfSnoc(keys: seq<string>)
    requires keys != []
    ensures KeySet(keys) == KeySet(keys[..|keys| - 1]) + {keys[|keys| - 1]}
  {
    assert keys == keys[..|keys| - 1] + [keys[|keys| - 1]];
  }

  function DictFromPairs<V>(keys: seq<string>, values: seq<V>): (d: map<string, V>)
    requires |keys| == |values|
    ensures d.Keys == KeySet(keys)
    decreases |keys|
  {
    if keys == [] then map[]
    else
      var n := |keys| - 1;
      KeySetOfSnoc(keys);
      DictFromPairs(keys[..n], values[..n])[keys[n] := values[n]]
  }

  /** The value of a key is the one paired with its last occurrence. */
  lemma {:induction false} DictFromPairsLastWins<V>(keys: seq<string>, values: seq<V>, i: int)
    requires |keys| == |values| && 0 <= i < |keys| && LastOccurrence(keys, i)
    ensures keys[i] in DictFromPairs(keys, values)
    ensures DictFromPairs(keys, values)[keys[i]] == values[i]
    decreases |keys|
  {
    var n := |keys| - 1;
    if i < n {
      LastOccurrenceInPrefix(keys, i);
      DictFromPairsLastWins(keys[..n], values[..n], i);
      assert keys[..n][i] == keys[i] && values[..n][i] == values[i];
    }
  }
}
