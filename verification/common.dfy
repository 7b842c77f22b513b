// Result types shared by every component, and the rounding used for money.

module Common {

  datatype Option<+T> = None | Some(value: T)

  datatype Result<+T, +E> = Ok(value: T) | Err(error: E) {
    predicate IsFailure() {
      Err?
    }

    function PropagateFailure<U>(): Result<U, E>
      requires Err?
    {
      Err(error)
    }

    function Extract(): T
      requires Ok?
    {
      value
    }
  }

  // A counter that is zero until it is written.
  function Get<K>(m: map<K, int>, k: K): int {
    if k in m then m[k] else 0
  }
}

/** `Decimal.quantize` with the default context rounds half to even
    (roundTiesToEven, section 4.3.1 of IEEE 754-2008). Amounts are integers in
    units of 0.0001; a quotient n / d is rounded to a whole number of units. */
module Rounding {

  // The nearest whole number, and the even one of two.
  predicate IsHalfEven(n: nat, d: nat, r: nat)
    requires d > 0
  {
    && -(d as int) <= 2 * (r * d - n) <= d
    && ((2 * (r * d - n) == d || 2 * (n - r * d) == d) ==> r % 2 == 0)
  }

  function HalfEven(n: nat, d: nat): (r: nat)
    requires d > 0
    ensures IsHalfEven(n, d, r)
  {
    var q := n / d;
    var rest := n % d;
    assert n == q * d + rest;
    assert (q + 1) * d == q * d + d;
    if 2 * rest < d then q
    else if 2 * rest > d then q + 1
    else if q % 2 == 0 then q
    else q + 1
  }

  // Rounding never reverses an order.
  lemma HalfEvenMonotone(n: nat, m: nat, d: nat)
    requires d > 0 && n <= m
    ensures HalfEven(n, d) <= HalfEven(m, d)
  {
    var r, s := HalfEven(n, d), HalfEven(m, d);
    if r > s {
      // One unit apart or more, so n cannot be below m.
      Scale(s + 1, r, d);
      Distribute(s, d);
    }
  }

  lemma Distribute(a: nat, d: nat)
    ensures (a + 1) * d == a * d + d
  {
  }

  lemma Scale(a: int, b: int, d: nat)
    requires a <= b
    ensures a * d <= b * d
  {
  }

  // Two different nearest whole numbers are the two ends of a tie.
  lemma Apart(n: nat, d: nat, r: nat, s: nat)
    requires d > 0 && r < s
    requires -(d as int) <= 2 * (r * d - n) && 2 * (s * d - n) <= d
    ensures s == r + 1 && 2 * (n - r * d) == d && 2 * (s * d - n) == d
  {
    Scale(r + 1, s, d);
    Distribute(r, d);
    assert s * d == r * d + d;
    TieNeighbours(r, s, d);
  }

  // The nearest whole number is unique: the contract of HalfEven fixes it.
  lemma HalfEvenUnique(n: nat, d: nat, r: nat)
    requires d > 0 && IsHalfEven(n, d, r)
    ensures r == HalfEven(n, d)
  {
    var s := HalfEven(n, d);
    if r < s {
      Apart(n, d, r, s);
    } else if s < r {
      Apart(n, d, s, r);
    }
  }

  lemma TieNeighbours(a: nat, b: nat, d: nat)
    requires d > 0 && a < b && b * d == a * d + d
    ensures b == a + 1
  {
    assert (a + 2) * d == a * d + 2 * d;
    if b >= a + 2 {
      Scale(a + 2, b, d);
    }
  }
}
