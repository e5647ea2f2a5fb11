/** The smoothstep polynomials s1, s3, s5, s7 and s9 of numpygen/noisegen.py and
    the table `smoothstep` that selects one of them by its degree. */
module SmoothstepBasis {

  /** The keys of the table `smoothstep`. */
  const Degrees: set<int> := {1, 3, 5, 7, 9}

  function S1(x: real): real { x }

  function S3(x: real): real { 3.0 * x * x - 2.0 * x * x * x }

  function S5(x: real): real {
    6.0 * x * x * x * x * x - 15.0 * x * x * x * x + 10.0 * x * x * x
  }

  function S7(x: real): real {
    -20.0 * x * x * x * x * x * x * x + 70.0 * x * x * x * x * x * x
    - 84.0 * x * x * x * x * x + 35.0 * x * x * x * x
  }

  function S9(x: real): real {
    70.0 * x * x * x * x * x * x * x * x * x - 315.0 * x * x * x * x * x * x * x * x
    + 540.0 * x * x * x * x * x * x * x - 420.0 * x * x * x * x * x * x
    + 126.0 * x * x * x * x * x
  }

  /** `smoothstep[d](x)`: the table lookup followed by the call. */
  function Smoothstep(d: int, x: real): real
    requires d in Degrees
  {
    match d
    case 1 => S1(x)
    case 3 => S3(x)
    case 5 => S5(x)
    case 7 => S7(x)
    case _ => S9(x)
  }

  /** Every entry of the table fixes both ends of the unit interval. */
  lemma SmoothstepEndpoints(d: int)
    requires d in Degrees
    ensures Smoothstep(d, 0.0) == 0.0 && Smoothstep(d, 1.0) == 1.0
  {
  }

  /** Every entry of the table is point-symmetric about (1/2, 1/2). */
  lemma SmoothstepSymmetric(d: int, x: real)
    requires d in Degrees
    ensures Smoothstep(d, 1.0 - x) == 1.0 - Smoothstep(d, x)
  {
  }

  /** s3 maps the unit interval into itself: s3(x) = x^2 (3 - 2x) and
      1 - s3(x) = (1 - x)^2 (1 + 2x). */
  lemma S3InUnit(x: real)
    requires 0.0 <= x <= 1.0
    ensures 0.0 <= S3(x) <= 1.0
  {
    var sq, co := x * x, (1.0 - x) * (1.0 - x);
    assert S3(x) == sq * (3.0 - 2.0 * x);
    assert 1.0 - S3(x) == co * (1.0 + 2.0 * x);
    NonNegativeProduct(x, x);
    NonNegativeProduct(1.0 - x, 1.0 - x);
    NonNegativeProduct(sq, 3.0 - 2.0 * x);
    NonNegativeProduct(co, 1.0 + 2.0 * x);
  }

  /** s5 maps the unit interval into itself: s5(x) = x^3 (6x^2 - 15x + 10) and
      1 - s5(x) = (1 - x)^3 (6x^2 + 3x + 1). */
  lemma S5InUnit(x: real)
    requires 0.0 <= x <= 1.0
    ensures 0.0 <= S5(x) <= 1.0
  {
    var cu, co := x * x * x, (1.0 - x) * (1.0 - x) * (1.0 - x);
    var p, q := 6.0 * x * x - 15.0 * x + 10.0, 6.0 * x * x + 3.0 * x + 1.0;
    assert S5(x) == cu * p;
    assert 1.0 - S5(x) == co * q;
    assert p == 6.0 * (x - 1.25) * (x - 1.25) + 0.625;
    NonNegativeProduct(x, x);
    NonNegativeProduct(x * x, x);
    NonNegativeProduct(1.0 - x, 1.0 - x);
    NonNegativeProduct((1.0 - x) * (1.0 - x), 1.0 - x);
    NonNegativeProduct(cu, p);
    NonNegativeProduct(co, q);
  }

  lemma NonNegativeProduct(a: real, b: real)
    requires 0.0 <= a && 0.0 <= b
    ensures 0.0 <= a * b
  {
  }
}
