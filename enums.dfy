/** `assert_ok!`, `assert_err!`, `assert_some!` and `assert_none!`. The
    bare form checks the arm. The comparison forms first run the bare form
    (so a value in the wrong arm fails before any comparison), then apply
    the operator arm to the inner value. Inner values that are compared are
    integers. */
module Enums {
  import opened Prelude
  import opened Operators
  import opened Verdicts

  /** `assert_ok!(result)`: panics on `Err(_)`. */
  function AssertOk<T, E>(r: Result<T, E>): (v: Verdict)
    ensures v.Pass? <==> r.Ok?
    ensures v.Fail? ==> v.reason == WrongArm
  {
    if r.Err? then Fail(WrongArm) else Pass
  }

  /** `assert_ok!(result, value op &x)`. */
  function AssertOkThat<E>(r: Result<int, E>, op: Op, x: int): (v: Verdict)
    ensures v.Pass? <==> r.Ok? && Holds(op, r.value, x)
    ensures r.Err? ==> v == Fail(WrongArm)
    ensures r.Ok? && v.Fail? ==> v.reason == Compared(op, r.value, x, None)
  {
    var arm := AssertOk(r);
    if arm.Fail? then arm
    else Check(op, r.value, x)
  }

  /** `assert_err!(result)`: panics on `Ok(_)`. */
  function AssertErr<T, E>(r: Result<T, E>): (v: Verdict)
    ensures v.Pass? <==> r.Err?
    ensures v.Fail? ==> v.reason == WrongArm
  {
    if r.Ok? then Fail(WrongArm) else Pass
  }

  /** `assert_err!(result, value op &x)`. */
  function AssertErrThat<T>(r: Result<T, int>, op: Op, x: int): (v: Verdict)
    ensures v.Pass? <==> r.Err? && Holds(op, r.error, x)
    ensures r.Ok? ==> v == Fail(WrongArm)
    ensures r.Err? && v.Fail? ==> v.reason == Compared(op, r.error, x, None)
  {
    var arm := AssertErr(r);
    if arm.Fail? then arm
    else Check(op, r.error, x)
  }

  /** `assert_some!(option)`: panics on `None`. */
  function AssertSome<T>(o: Option<T>): (v: Verdict)
    ensures v.Pass? <==> o.Some?
    ensures v.Fail? ==> v.reason == WrongArm
  {
    if o.None? then Fail(WrongArm) else Pass
  }

  /** `assert_some!(option, value op &x)`. */
  function AssertSomeThat(o: Option<int>, op: Op, x: int): (v: Verdict)
    ensures v.Pass? <==> o.Some? && Holds(op, o.value, x)
    ensures o.None? ==> v == Fail(WrongArm)
    ensures o.Some? && v.Fail? ==> v.reason == Compared(op, o.value, x, None)
  {
    var arm := AssertSome(o);
    if arm.Fail? then arm
    else Check(op, o.value, x)
  }

  /** `assert_none!(option)`: panics on `Some(_)`. It has no comparison form. */
  function AssertNone<T>(o: Option<T>): (v: Verdict)
    ensures v.Pass? <==> o.None?
    ensures v.Fail? ==> v.reason == WrongArm
  {
    if o.Some? then Fail(WrongArm) else Pass
  }

  /** Exactly one of the bare `assert_ok!` and `assert_err!` passes. */
  lemma OkErrExclusive<T, E>(r: Result<T, E>)
    ensures AssertOk(r).Pass? != AssertErr(r).Pass?
  {
  }

  /** Exactly one of the bare `assert_some!` and `assert_none!` passes. */
  lemma SomeNoneExclusive<T>(o: Option<T>)
    ensures AssertSome(o).Pass? != AssertNone(o).Pass?
  {
  }

  /** The arm check runs first: on the wrong arm every comparison form fails
      with the bare form's failure, whatever the operator and expected value. */
  lemma ArmCheckPrecedesValue<T, E>(ok: Result<int, E>, err: Result<T, int>, o: Option<int>, op: Op, x: int)
    ensures ok.Err? ==> AssertOkThat(ok, op, x) == AssertOk(ok) == Fail(WrongArm)
    ensures err.Ok? ==> AssertErrThat(err, op, x) == AssertErr(err) == Fail(WrongArm)
    ensures o.None? ==> AssertSomeThat(o, op, x) == AssertSome(o) == Fail(WrongArm)
  {
  }

  /** In the right arm a comparison form fails exactly when the complementary
      comparison of the inner value holds, as the field checks do. */
  lemma InnerArmsFailOnComplement<E>(r: Result<int, E>, x: int)
    requires r.Ok?
    ensures AssertOkThat(r, Eq, x).Fail? <==> r.value != x
    ensures AssertOkThat(r, Ne, x).Fail? <==> r.value == x
    ensures AssertOkThat(r, Lt, x).Fail? <==> r.value >= x
    ensures AssertOkThat(r, Le, x).Fail? <==> r.value > x
    ensures AssertOkThat(r, Gt, x).Fail? <==> r.value <= x
    ensures AssertOkThat(r, Ge, x).Fail? <==> r.value < x
  {
  }

  /** `assert_ok!` on `Ok(a)`, `assert_err!` on `Err(a)` and `assert_some!`
      on `Some(a)` give the same verdict for every operator. */
  lemma SameArmsForEveryWrapper<T, E>(a: int, op: Op, x: int)
    ensures var ok: Result<int, E> := Ok(a);
            var err: Result<T, int> := Err(a);
            AssertErrThat(err, op, x) == AssertOkThat(ok, op, x) == AssertSomeThat(Some(a), op, x)
  {
  }

  /** The error `"z".parse::<u32>()` returns in the unit tests. */
  datatype ParseIntError = InvalidDigit

  /** `"5".parse::<u32>()` and `"z".parse::<u32>()`, the results the unit
      tests inspect, and their `.ok()` options. */
  const ParsedFive: Result<int, ParseIntError> := Ok(5)
  const ParsedZ: Result<int, ParseIntError> := Err(InvalidDigit)
  const SomeFive: Option<int> := Some(5)
  const NoValue: Option<int> := None

  /** The unit tests on `"5".parse::<u32>()`, that is `Ok(5)`, and on
      `"z".parse::<u32>()`, that is `Err(InvalidDigit)`. */
  lemma OkUnitTests()
    ensures AssertOk(ParsedFive).Pass?
    ensures var r := ParsedFive;
      && AssertOkThat(r, Eq, 5).Pass? && AssertOkThat(r, Eq, 2).Fail?
      && AssertOkThat(r, Ne, 2).Pass? && AssertOkThat(r, Ne, 5).Fail?
      && AssertOkThat(r, Lt, 6).Pass? && AssertOkThat(r, Lt, 5).Fail?
      && AssertOkThat(r, Le, 5).Pass? && AssertOkThat(r, Le, 4).Fail?
      && AssertOkThat(r, Gt, 4).Pass? && AssertOkThat(r, Gt, 5).Fail?
      && AssertOkThat(r, Ge, 5).Pass? && AssertOkThat(r, Ge, 6).Fail?
    ensures AssertOkThat(ParsedZ, Eq, 5).Fail?
  {
  }

  /** The unit tests on `Err(5)`, and on `Ok(5)` for the bare form. */
  lemma ErrUnitTests()
    ensures AssertErr(ParsedZ).Pass?
    ensures var r: Result<(), int> := Err(5);
      && AssertErrThat(r, Lt, 6).Pass? && AssertErrThat(r, Lt, 5).Fail?
      && AssertErrThat(r, Le, 5).Pass? && AssertErrThat(r, Le, 4).Fail?
      && AssertErrThat(r, Gt, 4).Pass? && AssertErrThat(r, Gt, 5).Fail?
      && AssertErrThat(r, Ge, 5).Pass? && AssertErrThat(r, Ge, 6).Fail?
    ensures AssertErr(ParsedFive).Fail?
  {
  }

  /** The unit tests on `"5".parse::<u32>().ok()`, that is `Some(5)`, and on
      `"z".parse::<u32>().ok()`, that is `None`. */
  lemma OptionUnitTests()
    ensures AssertSome(SomeFive).Pass?
    ensures var o := SomeFive;
      && AssertSomeThat(o, Eq, 5).Pass? && AssertSomeThat(o, Eq, 2).Fail?
      && AssertSomeThat(o, Ne, 2).Pass? && AssertSomeThat(o, Ne, 5).Fail?
      && AssertSomeThat(o, Lt, 6).Pass? && AssertSomeThat(o, Lt, 5).Fail?
      && AssertSomeThat(o, Le, 5).Pass? && AssertSomeThat(o, Le, 4).Fail?
      && AssertSomeThat(o, Gt, 4).Pass? && AssertSomeThat(o, Gt, 5).Fail?
      && AssertSomeThat(o, Ge, 5).Pass? && AssertSomeThat(o, Ge, 6).Fail?
    ensures AssertSomeThat(NoValue, Eq, 5).Fail?
    ensures AssertNone(NoValue).Pass? && AssertNone(SomeFive).Fail?
  {
  }
}
