/** `assert_contains!`, `assert_all!` and `assert_any!` over a collection,
    seen as the sequence its iterator yields. The macros are built on the
    iterator adapters `find`, `all` and `any`, which are modelled here as
    the short-circuiting recursions they are and proved equal to the
    quantifiers they compute. */
module Collections {
  import opened Prelude
  import opened Verdicts

  /** `Iterator::find`: the first element satisfying `p`, if any. */
  function Find<T>(s: seq<T>, p: T -> bool): (r: Option<T>)
    ensures r.None? <==> forall i :: 0 <= i < |s| ==> !p(s[i])
    ensures r.Some? ==> exists i :: 0 <= i < |s| && s[i] == r.value && p(s[i]) && forall j :: 0 <= j < i ==> !p(s[j])
  {
    if |s| == 0 then None
    else if p(s[0]) then Some(s[0])
    else
      Find(s[1..], p)
  }

  /** `Iterator::all`: stops at the first element that fails `p`. */
  function All<T>(s: seq<T>, p: T -> bool): (b: bool)
    ensures b <==> forall i :: 0 <= i < |s| ==> p(s[i])
  {
    |s| == 0 || (p(s[0]) && All(s[1..], p))
  }

  /** `Iterator::any`: stops at the first element that satisfies `p`. */
  function Any<T>(s: seq<T>, p: T -> bool): (b: bool)
    ensures b <==> exists i :: 0 <= i < |s| && p(s[i])
  {
    |s| > 0 && (p(s[0]) || Any(s[1..], p))
  }

  /** `assert_contains!(collection, item)`: panics when `find` returns `None`
      for the predicate "equals `item`". */
  function AssertContains<T(==)>(c: seq<T>, item: T): (v: Verdict)
    ensures v == if item in c then Pass else Fail(Missing)
  {
    if Find(c, x => x == item).None? then Fail(Missing) else Pass
  }

  /** `assert_all!(collection, predicate[, description...])`: panics when
      `all` returns false. The description only enters the message. */
  function AssertAll<T>(c: seq<T>, p: T -> bool, description: Option<string>): (v: Verdict)
    ensures v.Pass? <==> forall i :: 0 <= i < |c| ==> p(c[i])
    ensures v.Fail? ==> v.reason == NotAll(description)
  {
    if !All(c, p) then Fail(NotAll(description)) else Pass
  }

  /** `assert_any!(collection, predicate[, description...])`: panics when
      `any` returns false. */
  function AssertAny<T>(c: seq<T>, p: T -> bool, description: Option<string>): (v: Verdict)
    ensures v.Pass? <==> exists i :: 0 <= i < |c| && p(c[i])
    ensures v.Fail? ==> v.reason == NoneMatched(description)
  {
    if !Any(c, p) then Fail(NoneMatched(description)) else Pass
  }

  /** On an empty collection `contains` and `any` fail and `all` passes. */
  lemma EmptyCollection<T>(item: T, p: T -> bool, description: Option<string>)
    ensures AssertContains([], item) == Fail(Missing)
    ensures AssertAll([], p, description) == Pass
    ensures AssertAny([], p, description) == Fail(NoneMatched(description))
  {
  }

  /** `assert_all!(c, p)` fails exactly when `assert_any!(c, not p)` passes. */
  lemma AllAnyDuality<T>(c: seq<T>, p: T -> bool, description: Option<string>)
    ensures AssertAll(c, p, description).Fail? <==> AssertAny(c, x => !p(x), description).Pass?
    ensures AssertAny(c, p, description).Fail? <==> AssertAll(c, x => !p(x), description).Pass?
  {
  }

  /** The described and undescribed forms test the same condition. */
  lemma DescriptionOnlyChangesMessage<T>(c: seq<T>, p: T -> bool, d: string)
    ensures AssertAll(c, p, Some(d)).Pass? == AssertAll(c, p, None).Pass?
    ensures AssertAny(c, p, Some(d)).Pass? == AssertAny(c, p, None).Pass?
  {
  }

  /** `Find` returns the first match: the element `assert_contains!` finds
      for "equals `item`" is `item` itself. */
  lemma FindEqualIsItem<T>(c: seq<T>, item: T)
    requires item in c
    ensures Find(c, x => x == item) == Some(item)
  {
  }

  /** The vectors of the unit tests. */
  const Odds: seq<int> := [1, 3, 5, 7, 9, 11, 13, 15, 17, 19]
  const OddsWithNegative: seq<int> := [-1, 3, 5, 7, 9, 11, 13, 15, 17, 19]

  lemma OddsAreOdd()
    ensures |Odds| == 10 && forall i :: 0 <= i < |Odds| ==> Odds[i] == 2 * i + 1
  {
  }

  /** `contains`: 5 is in the vector, 2 is not. */
  lemma ContainsUnitTests()
    ensures AssertContains(Odds, 5) == Pass
    ensures AssertContains(Odds, 2) == Fail(Missing)
  {
  }

  /** `all`: every element of `Odds` is positive; `-1, 3, ...` are not all
      negative. */
  lemma AllUnitTests()
    ensures AssertAll(Odds, x => x > 0, Some("all > 0")).Pass?
    ensures AssertAll(OddsWithNegative, x => x < 0, Some("all < 0")).Fail?
  {
  }

  /** `any`: some element is positive; `-1` is negative; no odd number is. */
  lemma AnyUnitTests()
    ensures AssertAny(Odds, x => x > 0, Some("any > 0")).Pass?
    ensures AssertAny(OddsWithNegative, x => x < 0, Some("all < 0")).Pass?
    ensures AssertAny(Odds, x => x < 0, Some("x < 0")).Fail?
  {
    OddsAreOdd();
    assert Odds[0] > 0;
    assert OddsWithNegative[0] == -1;
  }
}
