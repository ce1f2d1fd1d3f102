/** The six comparison operators a macro arm can be written with
    (`value == &x`, `value != &x`, `value < &x`, ...), and the two ways the
    crate turns an operator into a panic condition:

    - the field and enum checks test the COMPLEMENTARY operator
      (the `<` arm panics when `field >= val`);
    - the ordering checks test the NEGATION (`assert_lt!` panics when
      `!(left < right)`).

    Over integers the two coincide. Rust derives the operators of a
    `PartialOrd` type from `partial_cmp`, which may answer "incomparable";
    `HoldsBy` models that, and `FormsAgreeIffComparable` shows the two forms
    then differ for exactly the four ordering operators. */
module Operators {
  import opened Prelude

  datatype Op = Eq | Ne | Lt | Le | Gt | Ge

  /** `left op right`: the relation an arm asserts. */
  predicate Holds(op: Op, left: int, right: int) {
    match op
    case Eq => left == right
    case Ne => left != right
    case Lt => left < right
    case Le => left <= right
    case Gt => left > right
    case Ge => left >= right
  }

  /** The operator whose comparison each arm uses as its panic guard. */
  function Complement(op: Op): Op {
    match op
    case Eq => Ne
    case Ne => Eq
    case Lt => Ge
    case Le => Gt
    case Gt => Le
    case Ge => Lt
  }

  /** The panic guard of a field or enum arm, as the source writes it:
      the complementary comparison of the field (or inner value) with the
      expected value. */
  predicate PanicsOn(op: Op, left: int, right: int) {
    Holds(Complement(op), left, right)
  }

  lemma ComplementInvolution(op: Op)
    ensures Complement(Complement(op)) == op
    ensures Complement(op) != op
  {
  }

  /** Over a total order the complementary guard is exactly the negation of
      the asserted relation, for every operator. */
  lemma PanicsIffNotHolds(op: Op, left: int, right: int)
    ensures PanicsOn(op, left, right) <==> !Holds(op, left, right)
  {
  }

  /** The answer of Rust's `partial_cmp` when it is `Some`. */
  datatype Ordering = Less | Equal | Greater

  /** `left op right` for values whose `partial_cmp` answered `c`, `None`
      meaning incomparable (a NaN, say). Equality is the `PartialEq` that is
      consistent with `partial_cmp`: equal exactly when the answer is
      `Some(Equal)`. */
  predicate HoldsBy(op: Op, c: Option<Ordering>) {
    match op
    case Eq => c == Some(Equal)
    case Ne => c != Some(Equal)
    case Lt => c == Some(Less)
    case Le => c == Some(Less) || c == Some(Equal)
    case Gt => c == Some(Greater)
    case Ge => c == Some(Greater) || c == Some(Equal)
  }

  /** The complementary-operator guard, for values compared by `partial_cmp`. */
  predicate PanicsOnBy(op: Op, c: Option<Ordering>) {
    HoldsBy(Complement(op), c)
  }

  /** `partial_cmp` on integers: always comparable. */
  function Compare(left: int, right: int): (c: Ordering)
    ensures c == Less <==> left < right
    ensures c == Equal <==> left == right
    ensures c == Greater <==> left > right
  {
    if left < right then Less else if left == right then Equal else Greater
  }

  lemma HoldsByCompare(op: Op, left: int, right: int)
    ensures HoldsBy(op, Some(Compare(left, right))) <==> Holds(op, left, right)
    ensures PanicsOnBy(op, Some(Compare(left, right))) <==> PanicsOn(op, left, right)
  {
  }

  /** The complementary guard and the negated guard agree exactly when the
      values are comparable, or the operator is `==` or `!=`. */
  lemma FormsAgreeIffComparable(op: Op, c: Option<Ordering>)
    ensures (PanicsOnBy(op, c) <==> !HoldsBy(op, c)) <==> (c.Some? || op == Eq || op == Ne)
  {
    match c
    case None =>
    case Some(o) =>
      assert o == Less || o == Equal || o == Greater;
  }

  /** On incomparable values every ordering arm of a field or enum check
      passes, while the ordering macros, which negate, all fail. */
  lemma IncomparableSplitsForms(op: Op)
    requires op != Eq && op != Ne
    ensures !PanicsOnBy(op, None)
    ensures !HoldsBy(op, None)
  {
  }
}
