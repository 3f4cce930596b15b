/** The pure arithmetic of CGaussianKernel::compute: the squared distance
    rebuilt from dot products, and the standard and compact score policies.
    Arithmetic is exact over `real`; exp, sqrt, pow and the IEEE result of a
    division by zero are left uninterpreted. */
module Score {
  import opened Features

  /** The floating-point library calls the score makes, uninterpreted. */
  datatype FloatOps = FloatOps(
    exp: real -> real,
    sqrt: real -> real,
    pow: (real, int) -> real,
    /** x / 0.0: an infinity or NaN in IEEE arithmetic, which no real number is */
    divByZero: real -> real)

  /** x / y as the C++ code evaluates it. For a non-zero divisor the quotient
      is zero exactly when x is, and for a positive width it has the sign of x,
      so a non-negative distance gives sqrt a non-negative argument. */
  function Quotient(x: real, y: real, m: FloatOps): (q: real)
    ensures y != 0.0 ==> (q == 0.0 <==> x == 0.0)
    ensures y > 0.0 ==> (q >= 0.0 <==> x >= 0.0)
  {
    if y != 0.0 then x / y else m.divByZero(x)
  }

  /** The squared Euclidean distance between vector i of x and vector j of y,
      ||a||^2 + ||b||^2 - 2<a,b>, taken straight from the provider. */
  function SquaredDistance(p: DotProduct, x: DotFeatures, i: nat, y: DotFeatures, j: nat): real
  {
    p.dot(x, i, x, i) + p.dot(y, j, y, j) - 2.0 * p.dot(x, i, y, j)
  }

  /** The integer exponent of the compact policy for vectors of alen features:
      the least odd number that is at least alen. It never overflows int32. */
  function CompactPower(alen: nat): (power: nat)
    ensures power % 2 == 1
    ensures alen <= power <= alen + 1
    ensures alen < 0x8000_0000 ==> power < 0x8000_0000
  {
    if alen % 2 == 0 then alen + 1 else alen
  }

  /** The compact policy's taper 1 - sqrt(d/w)/3, clamped to 0 when it is not
      positive, else raised to the power. */
  function CompactMultiplier(sqDist: real, width: real, power: int, m: FloatOps): real
  {
    var taper := 1.0 - m.sqrt(Quotient(sqDist, width, m)) / 3.0;
    if taper <= 0.0 then 0.0 else m.pow(taper, power)
  }

  /** The kernel value for a squared distance: exp(-d/w) under the standard
      policy; under the compact policy that value times the clamped taper. */
  function GaussianScore(sqDist: real, width: real, compact: bool, alen: nat, m: FloatOps): real
  {
    var decay := m.exp(Quotient(-sqDist, width, m));
    if !compact then decay
    else CompactMultiplier(sqDist, width, CompactPower(alen), m) * decay
  }

  /** Exponents for the feature counts 0, 4 and 5. */
  lemma CompactPowerExamples()
    ensures CompactPower(0) == 1 && CompactPower(4) == 5 && CompactPower(5) == 5
  {
  }

  /** The compact score is zero exactly, whatever exp yields, once
      sqrt(d/w) reaches 3; below that it is the standard score scaled by the
      power of the positive taper. */
  lemma CompactScoreClamp(sqDist: real, width: real, alen: nat, m: FloatOps)
    ensures var s := m.sqrt(Quotient(sqDist, width, m));
      GaussianScore(sqDist, width, true, alen, m) ==
        if s >= 3.0 then 0.0
        else m.pow(1.0 - s / 3.0, CompactPower(alen)) * GaussianScore(sqDist, width, false, alen, m)
  {
  }

  /** A vector scored against itself (distance 0) scores exactly 1 under both
      policies, given that exp(0) = 1, sqrt(0) = 0 and 1 to any power is 1. */
  lemma ZeroDistanceScoresOne(width: real, compact: bool, alen: nat, m: FloatOps)
    requires width != 0.0
    requires m.exp(0.0) == 1.0 && m.sqrt(0.0) == 0.0 && m.pow(1.0, CompactPower(alen)) == 1.0
    ensures GaussianScore(0.0, width, compact, alen, m) == 1.0
  {
  }
}
