/** Values as the tracker's script sees them: numbers that `parseFloat` may
    turn into NaN, and the Option/Result wrappers used for error paths. */
module Numbers {

  /** A JavaScript number, abstracted: NaN (what `parseFloat` yields for an
      empty or non-numeric field) or an exact real. Infinities, overflow and
      IEEE rounding are not represented. */
  datatype Number = NaN | Num(value: real)

  /** `!(isNaN(x) || x <= 0)`: the number is set and strictly positive. */
  predicate IsPositive(x: Number) {
    x.Num? && x.value > 0.0
  }

  /** JavaScript multiplication: NaN absorbs, otherwise the exact product. */
  function Mul(a: Number, b: Number): (r: Number)
    ensures r.Num? <==> a.Num? && b.Num?
    ensures r.Num? ==> r.value == a.value * b.value
  {
    if a.NaN? || b.NaN? then NaN else Num(a.value * b.value)
  }

  datatype Option<+T> = None | Some(value: T)

  datatype Result<+T, +E> = Ok(value: T) | Err(error: E)
}
