/**
 * JavaScript numbers as the pages compute with them: exact reals, the two infinities and NaN.
 * Rounding and the sign of zero are not modelled. A missing numeric field (`undefined`)
 * behaves as NaN in every operation the pages use, so it is written `NaN` here.
 */
module JsNumber {

  datatype Num = Finite(r: real) | PosInf | NegInf | NaN

  const Zero: Num := Finite(0.0)

  /** JavaScript truthiness of a number: anything but 0 and NaN. */
  predicate Truthy(x: Num) {
    x != Zero && x != NaN
  }

  /** `a || b`. */
  function Or(a: Num, b: Num): (r: Num)
    ensures Truthy(a) ==> r == a
    ensures !Truthy(a) ==> r == b
  {
    if Truthy(a) then a else b
  }

  function Neg(a: Num): Num {
    match a
    case Finite(x) => Finite(-x)
    case PosInf => NegInf
    case NegInf => PosInf
    case NaN => NaN
  }

  function Add(a: Num, b: Num): Num {
    match (a, b)
    case (NaN, _) => NaN
    case (_, NaN) => NaN
    case (PosInf, NegInf) => NaN
    case (NegInf, PosInf) => NaN
    case (PosInf, _) => PosInf
    case (_, PosInf) => PosInf
    case (NegInf, _) => NegInf
    case (_, NegInf) => NegInf
    case (Finite(x), Finite(y)) => Finite(x + y)
  }

  function Sub(a: Num, b: Num): Num {
    Add(a, Neg(b))
  }

  /** The sign of a non-NaN number: -1, 0 or 1. */
  function Sign(a: Num): int
    requires a != NaN
  {
    match a
    case Finite(x) => if x > 0.0 then 1 else if x < 0.0 then -1 else 0
    case PosInf => 1
    case NegInf => -1
  }

  function Infinity(sign: int): Num {
    if sign > 0 then PosInf else NegInf
  }

  function Mul(a: Num, b: Num): Num {
    if a == NaN || b == NaN then NaN
    else if a.Finite? && b.Finite? then Finite(a.r * b.r)
    else if Sign(a) == 0 || Sign(b) == 0 then NaN
    else Infinity(Sign(a) * Sign(b))
  }

  /** `a / b`, with a zero divisor taken as +0. */
  function Div(a: Num, b: Num): Num {
    if a == NaN || b == NaN then NaN
    else if a.Finite? && b.Finite? then
      if b.r != 0.0 then Finite(a.r / b.r)
      else if a.r == 0.0 then NaN
      else Infinity(Sign(a))
    else if a.Finite? then Zero
    else if b.Finite? then Infinity(if b.r < 0.0 then -Sign(a) else Sign(a))
    else NaN
  }

  /** `a < b`: false whenever either side is NaN. */
  predicate Lt(a: Num, b: Num) {
    match (a, b)
    case (NaN, _) => false
    case (_, NaN) => false
    case (Finite(x), Finite(y)) => x < y
    case (NegInf, _) => b != NegInf
    case (_, PosInf) => a != PosInf
    case (_, _) => false
  }

  predicate Le(a: Num, b: Num) {
    Lt(a, b) || (a == b && a != NaN)
  }

  predicate Gt(a: Num, b: Num) {
    Lt(b, a)
  }

  predicate Ge(a: Num, b: Num) {
    Le(b, a)
  }

  /** `Math.max(a, b)`: NaN when either is NaN. */
  function Max(a: Num, b: Num): (r: Num)
    ensures a == NaN || b == NaN ==> r == NaN
    ensures a != NaN && b != NaN ==> (r == a || r == b) && Ge(r, a) && Ge(r, b)
  {
    if a == NaN || b == NaN then NaN else if Lt(a, b) then b else a
  }

  /** `Math.min(a, b)`: NaN when either is NaN. */
  function Min(a: Num, b: Num): (r: Num)
    ensures a == NaN || b == NaN ==> r == NaN
    ensures a != NaN && b != NaN ==> (r == a || r == b) && Le(r, a) && Le(r, b)
  {
    if a == NaN || b == NaN then NaN else if Lt(b, a) then b else a
  }

  /** `a / b * 100`. */
  function Percent(a: Num, b: Num): Num {
    Mul(Div(a, b), Finite(100.0))
  }

  /** Two numbers that are not NaN compare in exactly one way; NaN compares in none. */
  lemma Trichotomy(a: Num, b: Num)
    ensures a != NaN && b != NaN ==>
              (Lt(a, b) || a == b || Gt(a, b)) && !(Lt(a, b) && Gt(a, b)) && !(Lt(a, b) && a == b)
    ensures a == NaN || b == NaN ==> !Lt(a, b) && !Le(a, b) && !Gt(a, b) && !Ge(a, b)
  {
  }

  /** Away from NaN, `Ge` is the negation of `Lt`. */
  lemma GeNotLt(a: Num, b: Num)
    requires a != NaN && b != NaN
    ensures Ge(a, b) <==> !Lt(a, b)
  {
  }

  lemma LtTransitive(a: Num, b: Num, c: Num)
    requires Lt(a, b) && Le(b, c)
    ensures Lt(a, c)
  {
  }

  /** On finite operands with a non-zero divisor the operations are the real ones. */
  lemma FiniteArithmetic(x: real, y: real)
    ensures Add(Finite(x), Finite(y)) == Finite(x + y)
    ensures Sub(Finite(x), Finite(y)) == Finite(x - y)
    ensures Mul(Finite(x), Finite(y)) == Finite(x * y)
    ensures y != 0.0 ==> Div(Finite(x), Finite(y)) == Finite(x / y)
    ensures Lt(Finite(x), Finite(y)) <==> x < y
    ensures Ge(Finite(x), Finite(y)) <==> x >= y
  {
  }

  /** `x / y * 100` on finite operands with a non-zero divisor. */
  lemma PercentOfFinite(x: real, y: real)
    requires y != 0.0
    ensures Percent(Finite(x), Finite(y)) == Finite(x / y * 100.0)
  {
    assert Div(Finite(x), Finite(y)) == Finite(x / y);
  }

  /** Division by zero: infinite with the dividend's sign, or NaN for `0 / 0`. */
  lemma DivideByZero(a: Num)
    ensures a == Zero || a == NaN ==> Div(a, Zero) == NaN
    ensures Gt(a, Zero) ==> Div(a, Zero) == PosInf
    ensures Lt(a, Zero) ==> Div(a, Zero) == NegInf
  {
  }
}
