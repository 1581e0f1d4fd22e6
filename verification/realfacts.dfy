/** Two facts about ordered real arithmetic. Each holds with an empty body, but
    the solver only uses them where a call names the instance needed. */
module RealFacts {

  lemma MulLeftMonotone(a: real, b: real, c: real)
    requires a >= 0.0 && b <= c
    ensures a * b <= a * c
  {
  }

  lemma DivideOutPositive(a: real, b: real, v: real)
    requires v > 0.0 && a * v <= b * v
    ensures a <= b
  {
  }
}
