# totems: assertion macros for Rust tests, modelled in Dafny

`totems` is a set of assertion macros for Rust test suites. Each macro
evaluates one condition on its arguments. If the condition holds it does
nothing; otherwise it panics with a diagnostic. This project models every
macro as a pure function that returns a `Verdict`. `Pass` means the macro
does nothing. `Fail(reason)` means it panics, and the reason records the
kind of message and the values the message reports. The project then proves
what each macro promises.

The macros fall into four groups, plus one duplicate:

- **Field checks** `assert_0th!` ... `assert_15th!` (`tuples.dfy`). The
  sixteen macros have the same body except for the tuple field they read.
  They are modelled once, as `AssertField(t, n, op, val)` over a field
  index `n`.
- **Enum checks** `assert_ok!`, `assert_err!`, `assert_some!`,
  `assert_none!` (`enums.dfy`). Each has a bare form that checks the arm.
  The first three also have a comparison form: it runs the bare form first,
  then compares the inner value.
- **Ordering checks** `assert_lt!`, `assert_le!`, `assert_gt!`,
  `assert_ge!` (`inequalities.dfy`). Each has three call forms: plain,
  trailing comma, and format message.
- **Collection checks** `assert_contains!`, `assert_all!`, `assert_any!`
  (`collections.dfy`). They are built on the iterator adapters `find`, `all`
  and `any`. These are modelled as short-circuiting recursions and proved
  equal to the quantifiers they compute.
- `iterators.rs` defines `assert_contains!` a second time
  (`iterators.dfy`). Its use over a `HashMap` is modelled as a search over
  any order of the map's entries.

Shared pieces: `prelude.dfy` holds Rust's `Option` and `Result`.
`operators.dfy` holds the six operators and the two ways the crate turns an
operator into a panic condition. The field and enum arms test the
complementary operator: the `<` arm panics when `field >= val`. The ordering
macros test the negation: `assert_lt!` panics when `!(left < right)`. Over
integers the two agree. `Operators.FormsAgreeIffComparable` shows that,
under Rust's `partial_cmp`, they agree exactly when the values are
comparable (or the operator is `==` or `!=`). `verdicts.dfy` holds the
verdict type and `Check`, the one operator arm that every field and enum
check uses.

## Model

| member | source | states |
|---|---|---|
| `Operators.ComplementInvolution` | src/tuples.rs:41-88 | the operator each arm uses as its panic guard differs from the arm's own operator, and taking it twice gives the arm's operator back |
| `Operators.PanicsIffNotHolds` | src/tuples.rs:41-88 | over integers, an arm's complementary-operator guard holds exactly when the asserted relation does not |
| `Operators.Compare` | src/inequalities.rs:10 | integer comparison is total: it answers Less, Equal or Greater exactly when `<`, `==` or `>` holds |
| `Operators.HoldsByCompare` | src/inequalities.rs:10 | on integers, the operators derived from `partial_cmp` and the complementary guards coincide with plain integer comparison |
| `Operators.FormsAgreeIffComparable` | src/tuples.rs:57-88 | the complementary guard and the negated guard agree if and only if the values are comparable or the operator is `==`/`!=` |
| `Operators.IncomparableSplitsForms` | src/inequalities.rs:10 | on incomparable values an ordering arm of a field or enum check does not panic, while the asserted relation is false, so the ordering macro panics |
| `Verdicts.Check` | src/tuples.rs:41-88 | one operator arm passes iff `left op right` holds; when it fails, the failure reports the operator and both values |
| `Tuples.AssertField` | src/tuples.rs:40-89 | `assert_<n>th!` passes iff `tuple.n op val` holds, for every position `n` below 16 within the tuple; on failure it reports `tuple.n` and `val` |
| `Tuples.FieldArmsFailOnComplement` | src/tuples.rs:41-88 | `==` fails iff `field != val`, `!=` iff `field == val`, `<` iff `field >= val`, `<=` iff `field > val`, `>` iff `field <= val`, `>=` iff `field < val` |
| `Tuples.OnlyFieldNMatters` | src/tuples.rs:1330-1379 | the verdict depends on the tuple only through field `n`: the sixteen macros differ only in the index |
| `Tuples.SampleFields` | src/tuples.rs:2706 | in the test tuple `(1, ..., 16, "Hello")`, field `n` holds `n + 1` |
| `Tuples.PositionUnitTests` | src/tuples.rs:1381-2708 | for every position `n`, the `_correct` unit tests pass and the `_incorrect` ones fail, with the values the tests use: `== n+1` passes, and `== n` fails and `!= n` passes for `n > 0`, while position 0 tests `== 6` (fails) and `!= 2` (passes) |
| `Tuples.Field15Boundaries` | src/tuples.rs:1415-1461 | field 15 = 16: `<= 16` and `<= 17` pass, `<= 15` and `< 16` fail, `>= 16` and `>= 15` pass, `>= 17` fails |
| `Enums.AssertOk` | src/enums.rs:51-59 | bare `assert_ok!` passes iff the result is `Ok`; it fails with the wrong-arm message |
| `Enums.AssertOkThat` | src/enums.rs:60-131 | `assert_ok!(r, value op x)` passes iff `r` is `Ok(a)` with `a op x`; on `Err` it fails with the arm message whatever `op` and `x` |
| `Enums.AssertErr` | src/enums.rs:180-188 | bare `assert_err!` passes iff the result is `Err` |
| `Enums.AssertErrThat` | src/enums.rs:189-260 | `assert_err!(r, value op x)` passes iff `r` is `Err(e)` with `e op x`; on `Ok` it fails with the arm message |
| `Enums.AssertSome` | src/enums.rs:309-317 | bare `assert_some!` passes iff the option is `Some` |
| `Enums.AssertSomeThat` | src/enums.rs:318-389 | `assert_some!(o, value op x)` passes iff `o` is `Some(a)` with `a op x`; on `None` it fails with the arm message |
| `Enums.AssertNone` | src/enums.rs:415-423 | `assert_none!` passes iff the option is `None` |
| `Enums.OkErrExclusive` | src/enums.rs:51-188 | for every result exactly one of bare `assert_ok!` and `assert_err!` passes |
| `Enums.SomeNoneExclusive` | src/enums.rs:309-423 | for every option exactly one of bare `assert_some!` and `assert_none!` passes |
| `Enums.ArmCheckPrecedesValue` | src/enums.rs:60-62 | in the wrong arm every comparison form gives the bare form's failure, independent of operator and expected value |
| `Enums.InnerArmsFailOnComplement` | src/enums.rs:60-131 | on `Ok(a)` the six arms fail exactly when `a != x`, `a == x`, `a >= x`, `a > x`, `a <= x`, `a < x` respectively |
| `Enums.SameArmsForEveryWrapper` | src/enums.rs:60-389 | `Ok(a)`, `Err(a)` and `Some(a)` give the same verdict under the same operator arm |
| `Enums.OkUnitTests` | src/enums.rs:430-522 | on `Ok(5)`: `== 5`, `!= 2`, `< 6`, `<= 5`, `> 4`, `>= 5` pass; `== 2`, `!= 5`, `< 5`, `<= 4`, `> 5`, `>= 6` fail; on a parse error `== 5` fails |
| `Enums.ErrUnitTests` | src/enums.rs:524-629 | on `Err(5)` the ordering arms pass and fail at the same boundaries; bare `assert_err!` passes on a parse error and fails on `Ok(5)` |
| `Enums.OptionUnitTests` | src/enums.rs:631-738 | on `Some(5)` the arms pass and fail at the same boundaries; on `None` the comparison form fails; `assert_none!` passes on `None` and fails on `Some(5)` |
| `Inequalities.AssertOrdered` | src/inequalities.rs:6-39 | an ordering macro passes iff `left op right`; a failure reports both values, plus the formatted message in the message form |
| `Inequalities.AssertLt` | src/inequalities.rs:6-39 | `assert_lt!(l, r)` fails iff not `l < r`, in all three call forms |
| `Inequalities.AssertLe` | src/inequalities.rs:42-75 | `assert_le!(l, r)` fails iff not `l <= r` |
| `Inequalities.AssertGt` | src/inequalities.rs:78-111 | `assert_gt!(l, r)` fails iff not `l > r` |
| `Inequalities.AssertGe` | src/inequalities.rs:114-147 | `assert_ge!(l, r)` fails iff not `l >= r` |
| `Inequalities.TrailingCommaIsPlain` | src/inequalities.rs:21-23 | the trailing-comma form gives exactly the plain form's verdict |
| `Inequalities.MessageOnlyAddsNote` | src/inequalities.rs:24-38 | the message form passes iff the plain form does; its failure differs only by carrying the message |
| `Inequalities.NegationAgreesWithComplement` | src/inequalities.rs:10 | over integers the negated guard gives the same verdict as the complementary-operator arm of the field and enum checks |
| `Inequalities.OrderingDuality` | src/inequalities.rs:6-147 | `assert_lt!(a, b)` passes iff `assert_ge!(a, b)` fails, and `assert_le!` passes iff `assert_gt!` fails |
| `Inequalities.OrderingUnitTests` | src/inequalities.rs:154-250 | every unit test in its plain, trailing-comma and message form: `lt(5,5)`, `gt(5,5)`, `le(6,5)` and `ge(5,6)` fail; `le(5,5)`, `ge(5,5)` and all other calls pass |
| `Collections.Find` | src/collections.rs:8 | `find` returns `None` iff no element satisfies the predicate, and otherwise the first element that does |
| `Collections.All` | src/collections.rs:20 | `all` is true iff every element satisfies the predicate |
| `Collections.Any` | src/collections.rs:39 | `any` is true iff some element satisfies the predicate |
| `Collections.AssertContains` | src/collections.rs:5-15 | `assert_contains!` passes iff some element equals the item, and otherwise fails with the missing-item message |
| `Collections.AssertAll` | src/collections.rs:17-34 | `assert_all!` passes iff every element satisfies the predicate, with or without a description |
| `Collections.AssertAny` | src/collections.rs:36-53 | `assert_any!` passes iff some element satisfies the predicate, with or without a description |
| `Collections.EmptyCollection` | src/collections.rs:8-39 | on an empty collection `contains` and `any` fail and `all` passes |
| `Collections.AllAnyDuality` | src/collections.rs:20-39 | `assert_all!(c, p)` fails iff `assert_any!(c, not p)` passes, and `assert_any!(c, p)` fails iff `assert_all!(c, not p)` passes |
| `Collections.DescriptionOnlyChangesMessage` | src/collections.rs:26-27 | the described forms of `all` and `any` pass exactly when the undescribed forms do |
| `Collections.FindEqualIsItem` | src/collections.rs:8 | when the item occurs, the `find` inside `assert_contains!` returns the item itself |
| `Collections.OddsAreOdd` | src/collections.rs:63 | the test vector `[1, 3, ..., 19]` holds `2i + 1` at index `i` |
| `Collections.ContainsUnitTests` | src/collections.rs:61-74 | on `[1, 3, ..., 19]`, containing 5 passes and containing 2 fails |
| `Collections.AllUnitTests` | src/collections.rs:79-90 | `all(x > 0)` passes on `[1, 3, ...]`; `all(x < 0)` fails on `[-1, 3, ...]` |
| `Collections.AnyUnitTests` | src/collections.rs:96-113 | `any(x > 0)` passes on `[1, 3, ...]`, `any(x < 0)` passes on `[-1, 3, ...]` and fails on `[1, 3, ...]` |
| `Iterators.AssertContains` | src/iterators.rs:5-15 | the redefined `assert_contains!` passes iff some element equals the item |
| `Iterators.SameAsCollections` | src/iterators.rs:5-15 | the two definitions of `assert_contains!` give the same verdict on every collection and item |
| `Iterators.MapContains` | src/iterators.rs:8 | over any order in which a map yields its entries, the check on `(k, v)` passes iff `k` is a key mapped to `v` |
| `Iterators.VecUnitTests` | src/iterators.rs:20-44 | on `[1, 3, ..., 19]`, 5 is found and 2 is not |
| `Iterators.MapUnitTest` | src/iterators.rs:27-36 | after inserting `a->1, b->3, c->5, d->7`, the pair `("a", 1)` is found in every iteration order |

## Left out

- Panicking and the failure message text. The model returns `Fail(reason)`.
  The reason keeps the message kind, the operator and the compared values.
  The Debug rendering (`{:?}`), `stringify!` of the argument, and the layout
  of the message are not modelled.
- `format_args!`: the message form of the ordering macros and the described
  forms of `all`/`any` take the already formatted text as a string.
- Generic `PartialEq`/`PartialOrd`. Values compared by an operator are
  integers. The incomparable case (a NaN, say) appears only as the abstract
  `partial_cmp` answer `None` in `Operators.HoldsBy`. No floating-point type
  is modelled.
- Collections.AssertContains: elements are compared with Dafny's equality,
  which is reflexive. A Rust `PartialEq` that is not reflexive is not
  modelled: `assert_contains!(&vec![f64::NAN], &f64::NAN)` panics in Rust,
  while the model passes whenever the item occurs.
- Iterators.AssertContains: the same reflexive equality as
  `Collections.AssertContains`; a non-reflexive `PartialEq` is not modelled.
- Iterators.MapContains: keys and values are compared with Dafny's
  equality; a non-reflexive `PartialEq` on them is not modelled.
- Integer widths (`u32`, `i32`): the macros only compare and never compute,
  so unbounded integers give the same verdicts.
- The string-valued `Err` tests of `assert_err!` (src/enums.rs:532-560):
  inner values that are compared are integers, so these tests are not
  restated.
- Heterogeneous tuples. A tuple is the sequence of its integer fields, so the
  trailing `"Hello"` of the test tuple is dropped. A position beyond the
  tuple's arity is a compile-time error in Rust; here it is a precondition
  of `Tuples.AssertField`.
- `"5".parse::<u32>()` is foreign code. Its results in the tests are the
  constants `Enums.ParsedFive` and `Enums.ParsedZ`.
- Evaluation of macro arguments. A macro evaluates its collection or value
  expression more than once. The model takes values, so side effects of those
  expressions are not modelled. Predicates passed to `all`/`any` are total,
  pure functions.
- `HashMap` hashing and iteration order. A map is modelled by every sequence
  that enumerates its entries, and only membership is stated.
- The `AssertContains` trait (src/iterators.rs:1-3) is declared but never
  implemented, so there is nothing to model.
- A positional nth-element check and a chainable `Ok`/`Some` checker are not
  defined in any of the modelled files, so neither is modelled.
