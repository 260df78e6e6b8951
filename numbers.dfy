/** JavaScript numbers as the forms see them: the result of `parseFloat`. */
module Numbers {

  /** `parseFloat`'s result: `NaN` when no number could be read, otherwise a finite value. */
  datatype ParsedNumber = NaN | Number(value: real)

  /** `!(isNaN(p) || p <= 0)`: the test both forms apply to a parsed price. */
  predicate IsPositive(p: ParsedNumber) {
    p.Number? && p.value > 0.0
  }
}
