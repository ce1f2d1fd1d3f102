/** The positional field checks `assert_0th!` ... `assert_15th!`. The
    sixteen macros have one body each, identical but for the tuple field
    they read; here that body is written once over the field index. A tuple
    is the sequence of its integer fields. */
module Tuples {
  import opened Operators
  import opened Verdicts

  /** How many positional macros the crate defines (fields 0 through 15). */
  const Positions := 16

  /** `assert_<n>th!(&tuple, value op &val)`: panics when the complementary
      comparison of `tuple.n` with `val` holds. A position beyond the tuple's
      arity is rejected by the Rust compiler, hence the precondition. */
  function AssertField(t: seq<int>, n: nat, op: Op, val: int): (v: Verdict)
    requires n < |t| && n < Positions
    ensures v.Pass? <==> Holds(op, t[n], val)
    ensures v.Fail? ==> v.reason == Compared(op, t[n], val, Prelude.None)
  {
    Check(op, t[n], val)
  }

  /** Each arm fails exactly when the complementary comparison holds. */
  lemma FieldArmsFailOnComplement(t: seq<int>, n: nat, val: int)
    requires n < |t| && n < Positions
    ensures AssertField(t, n, Eq, val).Fail? <==> t[n] != val
    ensures AssertField(t, n, Ne, val).Fail? <==> t[n] == val
    ensures AssertField(t, n, Lt, val).Fail? <==> t[n] >= val
    ensures AssertField(t, n, Le, val).Fail? <==> t[n] > val
    ensures AssertField(t, n, Gt, val).Fail? <==> t[n] <= val
    ensures AssertField(t, n, Ge, val).Fail? <==> t[n] < val
  {
  }

  /** The index is the only thing that tells the sixteen macros apart: the
      verdict depends on the tuple only through field `n`. */
  lemma OnlyFieldNMatters(t: seq<int>, u: seq<int>, n: nat, op: Op, val: int)
    requires n < |t| && n < |u| && n < Positions
    requires t[n] == u[n]
    ensures AssertField(t, n, op, val) == AssertField(u, n, op, val)
  {
  }

  /** The integer part of the tuple every unit test uses,
      `(1, 2, ..., 16, "Hello")`. */
  const Sample: seq<int> := [1, 2, 3, 4, 5, 6, 7, 8, 9, 10, 11, 12, 13, 14, 15, 16]

  lemma SampleFields(n: nat)
    requires n < Positions
    ensures |Sample| == Positions && Sample[n] == n + 1
  {
  }

  /** The unit tests of every position `n`, where field `n` holds `n + 1`:
      each `_correct` test passes and each `_incorrect` test fails. Position
      0 tests `== 6` and `!= 2` where the other positions test `== n` and
      `!= n`. */
  lemma PositionUnitTests(n: nat)
    requires n < Positions
    ensures AssertField(Sample, n, Eq, n + 1).Pass? && AssertField(Sample, n, Ne, n + 1).Fail?
    ensures n == 0 ==> AssertField(Sample, 0, Eq, 6).Fail? && AssertField(Sample, 0, Ne, 2).Pass?
    ensures n > 0 ==> AssertField(Sample, n, Eq, n).Fail? && AssertField(Sample, n, Ne, n).Pass?
    ensures AssertField(Sample, n, Lt, n + 2).Pass? && AssertField(Sample, n, Lt, n + 1).Fail?
    ensures AssertField(Sample, n, Le, n + 1).Pass? && AssertField(Sample, n, Le, n + 2).Pass?
    ensures AssertField(Sample, n, Le, n).Fail?
    ensures AssertField(Sample, n, Gt, n).Pass? && AssertField(Sample, n, Gt, n + 1).Fail?
    ensures AssertField(Sample, n, Ge, n + 1).Pass? && AssertField(Sample, n, Ge, n).Pass?
    ensures AssertField(Sample, n, Ge, n + 2).Fail?
  {
  }

  /** The boundary tests of `assert_15th!`, where field 15 holds 16. */
  lemma Field15Boundaries()
    ensures AssertField(Sample, 15, Le, 16).Pass? && AssertField(Sample, 15, Le, 17).Pass?
    ensures AssertField(Sample, 15, Le, 15).Fail? && AssertField(Sample, 15, Lt, 16).Fail?
    ensures AssertField(Sample, 15, Ge, 16).Pass? && AssertField(Sample, 15, Ge, 15).Pass?
    ensures AssertField(Sample, 15, Ge, 17).Fail?
  {
  }
}
