/** A bounded memory: what remains when the oldest entries beyond a size are forgotten one by
    one. The agent's settled guards and the helper's attempts are both kept so. */
module Remembering {

  /** The most recent `size` entries, in order. */
  function Recent<T>(entries: seq<T>, size: nat): (r: seq<T>)
    ensures |r| <= size
  {
    if |entries| <= size then entries else entries[|entries| - size..]
  }

  /** Remembering one more and forgetting the excess is remembering the most recent of all. */
  lemma RecentAppend<T>(entries: seq<T>, size: nat, e: T)
    requires size > 0
    ensures Recent(Recent(entries, size) + [e], size) == Recent(entries + [e], size)
  {
    if |entries| > size {
      var cut := |entries| - size;
      assert entries[cut..] + [e] == (entries + [e])[cut..];
      assert (entries + [e])[cut..][1..] == (entries + [e])[cut + 1..];
    }
  }

  lemma SubsetIsSmaller<T>(a: set<T>, b: set<T>)
    requires a <= b
    ensures |a| <= |b|
  {
    assert b == a + (b - a);
  }
}
