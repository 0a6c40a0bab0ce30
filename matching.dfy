/** First-match search, the pattern behind every "loop over the elements, act on the
    first whose text matches, raise ValueError after the loop" in the widgets. */
module Matching {
  import opened Outcomes

  /** The position of the first occurrence of `key` in `keys`. */
  function FirstIndex(keys: seq<string>, key: string): (r: Option<nat>)
    ensures r.None? <==> key !in keys
    ensures r.Some? ==> r.value < |keys| && keys[r.value] == key && key !in keys[..r.value]
    decreases |keys|
  {
    if keys == [] then None
    else if keys[0] == key then Some(0)
    else
      match FirstIndex(keys[1..], key)
      case None => None
      case Some(i) =>
        assert keys[..i + 1] == [keys[0]] + keys[1..][..i];
        Some(i + 1)
  }

  /** A position holding `key` with no earlier occurrence is the first one. */
  lemma FirstIndexAt(keys: seq<string>, key: string, i: nat)
    requires i < |keys| && keys[i] == key && key !in keys[..i]
    ensures FirstIndex(keys, key) == Some(i)
  {
    assert keys[i] in keys;
  }

  /** Extending a prefix with a non-matching element keeps it free of `key`. */
  lemma NotInExtended(keys: seq<string>, key: string, i: nat)
    requires i < |keys| && keys[i] != key && key !in keys[..i]
    ensures key !in keys[..i + 1]
  {
    assert keys[..i + 1] == keys[..i] + [keys[i]];
  }
}
