/** What one assertion does: nothing (`Pass`), or panic (`Fail`) with a
    message of a given kind. The message text itself is not modelled; the
    reason keeps the operator and the two values the message reports. */
module Verdicts {
  import opened Prelude
  import opened Operators

  datatype Reason =
    /** "(x is Ok(_))", "(x is Err(_))", "(x is Some(_))", "(x is None)" */
    | WrongArm
    /** "left op right" failed; `note` is the formatted message of the
        message form of the ordering macros. */
    | Compared(op: Op, left: int, right: int, note: Option<string>)
    /** "(collection contains item)" */
    | Missing
    /** "(all elements of collection match predicate)", with the optional
        description of the predicate. */
    | NotAll(description: Option<string>)
    /** "(any element of collection matches predicate)" */
    | NoneMatched(description: Option<string>)

  datatype Verdict = Pass | Fail(reason: Reason)

  /** One operator arm of a field or enum check on the compared value `left`
      and the expected value `right`: it panics when the complementary
      comparison holds. */
  function Check(op: Op, left: int, right: int): (v: Verdict)
    ensures v.Pass? <==> Holds(op, left, right)
    ensures v.Fail? ==> v.reason == Compared(op, left, right, None)
  {
    if PanicsOn(op, left, right) then Fail(Compared(op, left, right, None)) else Pass
  }
}
