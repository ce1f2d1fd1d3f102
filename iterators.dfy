/** The second definition of `assert_contains!`, beside the `AssertContains`
    trait (declared, never implemented). The macro body is the same `find`
    expression as in the collections module; what is new is the use over
    any iterable, a `HashMap` among them, which iterates its `(key, value)`
    pairs in an unspecified order. */
module Iterators {
  import opened Prelude
  import opened Verdicts
  import Collections

  /** `assert_contains!(collection, item)`, as redefined here. */
  function AssertContains<T(==)>(c: seq<T>, item: T): (v: Verdict)
    ensures v == if item in c then Pass else Fail(Missing)
  {
    if Collections.Find(c, x => x == item).None? then Fail(Missing) else Pass
  }

  /** Both definitions of the macro give the same verdict on every input. */
  lemma SameAsCollections<T>(c: seq<T>, item: T)
    ensures AssertContains(c, item) == Collections.AssertContains(c, item)
  {
  }

  /** `pairs` is some order in which a map's iterator can yield its entries:
      each entry of `m` occurs, and nothing else does. */
  ghost predicate Enumerates<K, V>(pairs: seq<(K, V)>, m: map<K, V>) {
    && (forall i :: 0 <= i < |pairs| ==> pairs[i].0 in m && m[pairs[i].0] == pairs[i].1)
    && (forall k :: k in m ==> (k, m[k]) in pairs)
  }

  /** On a map, whatever the iteration order, the check passes exactly when
      the key is present with that value. */
  lemma MapContains<K, V>(m: map<K, V>, pairs: seq<(K, V)>, key: K, value: V)
    requires Enumerates(pairs, m)
    ensures AssertContains(pairs, (key, value)).Pass? <==> key in m && m[key] == value
  {
  }

  /** The vector unit tests: 5 is found, 2 is not. */
  lemma VecUnitTests()
    ensures AssertContains(Collections.Odds, 5) == Pass
    ensures AssertContains(Collections.Odds, 2) == Fail(Missing)
  {
  }

  /** The map unit test: after inserting `"a" -> 1`, `"b" -> 3`, `"c" -> 5`
      and `"d" -> 7`, the pair `("a", 1)` is found in any iteration order. */
  lemma MapUnitTest(pairs: seq<(string, int)>)
    requires Enumerates(pairs, map[]["a" := 1]["b" := 3]["c" := 5]["d" := 7])
    ensures AssertContains(pairs, ("a", 1)).Pass?
  {
    MapContains(map[]["a" := 1]["b" := 3]["c" := 5]["d" := 7], pairs, "a", 1);
  }
}
