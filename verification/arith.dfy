/** Small facts of integer multiplication and Euclidean division, proved once and cited where needed. */
module Arith {

  lemma MulAssoc(a: int, b: int, c: int)
    ensures a * b * c == a * (b * c)
  {
  }

  lemma MulDistAdd(a: int, b: int, m: int)
    ensures (a + b) * m == a * m + b * m
  {
  }

  lemma MulDistSub(a: int, b: int, m: int)
    ensures (a - b) * m == a * m - b * m
  {
  }

  lemma MulMono(x: nat, y: nat, m: nat)
    requires x <= y
    ensures x * m <= y * m
  {
  }

  lemma MulPosGe(d: int, m: int)
    requires d >= 1 && m > 0
    ensures d * m >= m
  {
  }

  lemma MulZero(x: nat, y: nat, z: nat)
    requires y == 0 || z == 0
    ensures x * y * z == 0
  {
  }

  /** Quotient and remainder are determined by any decomposition n == q*m + r with 0 <= r < m. */
  lemma DivModUnique(n: int, m: int, q: int, r: int)
    requires m > 0 && 0 <= r < m && n == q * m + r
    ensures n / m == q && n % m == r
  {
    var q', r' := n / m, n % m;
    assert n == q' * m + r';
    MulDistSub(q, q', m);
    if q > q' {
      MulPosGe(q - q', m);
    } else if q < q' {
      MulPosGe(q' - q, m);
      MulDistSub(q', q, m);
    }
  }

  /**
   * Multiplication of naturals as repeated addition. Loop proofs state lattice
   * indices with `Mul` so that the solver only ever unfolds it into linear
   * arithmetic; `MulIsProduct` connects it with `*`.
   */
  function Mul(x: nat, y: nat): nat {
    if x == 0 then 0 else Mul(x - 1, y) + y
  }

  lemma {:induction false} MulIsProduct(x: nat, y: nat)
    ensures Mul(x, y) == x * y
  {
    if x > 0 {
      MulIsProduct(x - 1, y);
      MulDistAdd(x - 1, 1, y);
    }
  }

  lemma MulDistNat(x: nat, y: nat, m: nat)
    ensures Mul(x + y, m) == Mul(x, m) + Mul(y, m)
  {
    MulIsProduct(x + y, m);
    MulIsProduct(x, m);
    MulIsProduct(y, m);
    MulDistAdd(x, y, m);
  }

  lemma RealMulLe(a: real, b: real, d: real)
    requires a <= b && d > 0.0
    ensures a * d <= b * d
  {
  }

  lemma RealMulLt(a: real, b: real, d: real)
    requires a < b && d > 0.0
    ensures a * d < b * d
  {
  }

  lemma RealDivMul(e: real, d: real)
    requires d > 0.0
    ensures e / d * d == e
    ensures e >= 0.0 ==> e / d >= 0.0
  {
  }
}
