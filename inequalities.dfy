/** `assert_lt!`, `assert_le!`, `assert_gt!` and `assert_ge!`. Each panics
    when the NEGATION of its relation holds, `!(left < right)`, unlike the
    field and enum checks, which test the complementary operator. Each macro
    has three call forms: plain, with a trailing comma (which expands to the
    plain form), and with a format message appended to the failure. */
module Inequalities {
  import opened Prelude
  import opened Operators
  import opened Verdicts

  datatype Form = Plain | TrailingComma | Message(text: string)

  /** The note a failure carries: the formatted message, if the call has one. */
  function NoteOf(form: Form): Option<string> {
    if form.Message? then Some(form.text) else None
  }

  /** The four operators an ordering macro exists for. */
  predicate IsOrdering(op: Op) {
    op == Lt || op == Le || op == Gt || op == Ge
  }

  /** The body shared by the four macros: the relation `op` names is tested
      by negation; the trailing-comma form re-invokes the plain form. */
  function AssertOrdered(op: Op, left: int, right: int, form: Form): (v: Verdict)
    requires IsOrdering(op)
    ensures v.Pass? <==> Holds(op, left, right)
    ensures v.Fail? ==> v.reason == Compared(op, left, right, NoteOf(form))
    decreases if form.TrailingComma? then 1 else 0
  {
    match form
    case TrailingComma => AssertOrdered(op, left, right, Plain)
    case Plain => if !Holds(op, left, right) then Fail(Compared(op, left, right, None)) else Pass
    case Message(text) => if !Holds(op, left, right) then Fail(Compared(op, left, right, Some(text))) else Pass
  }

  /** `assert_lt!(left, right)`. */
  function AssertLt(left: int, right: int, form: Form): (v: Verdict)
    ensures v.Pass? <==> left < right
  {
    AssertOrdered(Lt, left, right, form)
  }

  /** `assert_le!(left, right)`. */
  function AssertLe(left: int, right: int, form: Form): (v: Verdict)
    ensures v.Pass? <==> left <= right
  {
    AssertOrdered(Le, left, right, form)
  }

  /** `assert_gt!(left, right)`. */
  function AssertGt(left: int, right: int, form: Form): (v: Verdict)
    ensures v.Pass? <==> left > right
  {
    AssertOrdered(Gt, left, right, form)
  }

  /** `assert_ge!(left, right)`. */
  function AssertGe(left: int, right: int, form: Form): (v: Verdict)
    ensures v.Pass? <==> left >= right
  {
    AssertOrdered(Ge, left, right, form)
  }

  /** The trailing comma changes nothing. */
  lemma TrailingCommaIsPlain(op: Op, left: int, right: int)
    requires IsOrdering(op)
    ensures AssertOrdered(op, left, right, TrailingComma) == AssertOrdered(op, left, right, Plain)
  {
  }

  /** The message form tests the same condition; a failure differs from the
      plain form's only in the note it carries. */
  lemma MessageOnlyAddsNote(op: Op, left: int, right: int, text: string)
    requires IsOrdering(op)
    ensures AssertOrdered(op, left, right, Message(text)).Pass? == AssertOrdered(op, left, right, Plain).Pass?
    ensures AssertOrdered(op, left, right, Message(text)).Fail? ==>
      AssertOrdered(op, left, right, Message(text)).reason
        == AssertOrdered(op, left, right, Plain).reason.(note := Some(text))
  {
  }

  /** Over integers the negated guard of these macros and the complementary
      guard of the field and enum arms give the same verdict. */
  lemma NegationAgreesWithComplement(op: Op, left: int, right: int)
    requires IsOrdering(op)
    ensures AssertOrdered(op, left, right, Plain) == Check(op, left, right)
  {
  }

  /** `assert_lt!` passes exactly when `assert_ge!` fails, and `assert_le!`
      exactly when `assert_gt!` fails. */
  lemma OrderingDuality(a: int, b: int, form: Form)
    ensures AssertLt(a, b, form).Pass? <==> AssertGe(a, b, form).Fail?
    ensures AssertLe(a, b, form).Pass? <==> AssertGt(a, b, form).Fail?
  {
  }

  /** Every unit test, including the boundary `5, 5`. */
  lemma OrderingUnitTests()
    ensures AssertLt(5, 7, Plain).Pass? && AssertLt(5, 6, Plain).Pass? && AssertLt(5, 6, TrailingComma).Pass?
    ensures AssertLt(5, 6, Message("5 is less than 6")).Pass? && AssertLt(5, 5, Plain).Fail?
    ensures AssertLe(5, 6, Plain).Pass? && AssertLe(5, 5, Plain).Pass?
    ensures AssertLe(5, 6, TrailingComma).Pass? && AssertLe(5, 5, TrailingComma).Pass?
    ensures AssertLe(5, 6, Message("5 is less or equal to 6")).Pass? && AssertLe(6, 5, Plain).Fail?
    ensures AssertGt(7, 5, Plain).Pass? && AssertGt(6, 5, Plain).Pass?
    ensures AssertGt(7, 5, TrailingComma).Pass? && AssertGt(6, 5, TrailingComma).Pass?
    ensures AssertGt(7, 5, Message("7 is greater than 5")).Pass? && AssertGt(5, 5, Plain).Fail?
    ensures AssertGe(6, 6, Plain).Pass? && AssertGe(5, 5, Plain).Pass?
    ensures AssertGe(6, 6, TrailingComma).Pass? && AssertGe(5, 5, TrailingComma).Pass?
    ensures AssertGe(6, 5, Message("6 is greater or equal to 5")).Pass? && AssertGe(5, 6, Plain).Fail?
  {
  }
}
