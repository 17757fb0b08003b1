/** The bignumber.js values the adaptor computes with.

    bignumber.js is decimal arithmetic; its values are modelled as exact
    rationals. A BigNumber built from `undefined` (a price that is missing
    from the price map) is NaN, and NaN absorbs every operation it takes part
    in. `isZero()` is false for NaN. */
module BigDecimal {

  datatype Num = Finite(value: real) | NaN

  /** `x.isZero()` */
  predicate IsZero(x: Num) {
    x == Finite(0.0)
  }

  /** `a.plus(b)` */
  function Plus(a: Num, b: Num): Num {
    if a.Finite? && b.Finite? then Finite(a.value + b.value) else NaN
  }

  /** `a.minus(b)` */
  function Minus(a: Num, b: Num): Num {
    if a.Finite? && b.Finite? then Finite(a.value - b.value) else NaN
  }

  /** `a.multipliedBy(b)` */
  function Times(a: Num, b: Num): Num {
    if a.Finite? && b.Finite? then Finite(a.value * b.value) else NaN
  }

  /** `a.div(b)`; the adaptor never divides by zero, so the Infinity that
      bignumber.js returns for that case is not part of this model. */
  function DividedBy(a: Num, b: Num): Num
    requires b != Finite(0.0)
  {
    if a.Finite? && b.Finite? then Finite(a.value / b.value) else NaN
  }

  /** `new BigNumber(n.toString())` for an integer read from the chain */
  function FromNat(n: nat): Num {
    Finite(n as real)
  }
}
