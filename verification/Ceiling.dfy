/** Rounding a quotient up: how many batches of a size cover a number of items. */
module Ceiling {
  function Least(a: nat, b: nat): nat {
    if a < b then a else b
  }

  function CeilDiv(n: nat, size: nat): nat
    requires size > 0
  {
    (n + size - 1) / size
  }

  function Distance(a: int, b: int): nat {
    if a < b then b - a else a - b
  }

  /** The value of the range that is nearest to the requested one. */
  predicate Nearest(requested: int, low: nat, high: nat, chosen: nat) {
    && low <= chosen <= high
    && forall other: nat | low <= other <= high :: Distance(chosen, requested) <= Distance(other, requested)
  }

  lemma MulMonotone(a: nat, b: nat, size: nat)
    requires a <= b
    ensures a * size <= b * size
  {
    assert b * size - a * size == (b - a) * size;
  }

  lemma CeilDivBounds(n: nat, size: nat)
    requires size > 0
    ensures CeilDiv(n, size) * size >= n
    ensures n > 0 ==> CeilDiv(n, size) >= 1 && (CeilDiv(n, size) - 1) * size < n
  {
    var q := CeilDiv(n, size);
    assert n + size - 1 == q * size + (n + size - 1) % size;
    assert (q - 1) * size == q * size - size;
  }

  /** k batches cover the items exactly when k reaches the rounded quotient. */
  lemma CoversIff(n: nat, size: nat, k: nat)
    requires size > 0
    ensures k * size >= n <==> k >= CeilDiv(n, size)
  {
    CeilDivBounds(n, size);
    if k >= CeilDiv(n, size) {
      MulMonotone(CeilDiv(n, size), k, size);
    } else {
      MulMonotone(k, CeilDiv(n, size) - 1, size);
    }
  }

  /** How far k batches reach into n items. */
  function Reach(n: nat, size: nat, k: nat): (r: nat)
    ensures r <= n
  {
    if k == 0 then 0
    else
      var next := Reach(n, size, k - 1) + size;
      if next < n then next else n
  }

  lemma {:induction false} ReachIs(n: nat, size: nat, k: nat)
    ensures Reach(n, size, k) == if k * size < n then k * size else n
  {
    if k > 0 {
      ReachIs(n, size, k - 1);
      assert k * size == (k - 1) * size + size;
    }
  }

  /** k batches reach everything exactly when k covers it. */
  lemma ReachAll(n: nat, size: nat, k: nat)
    requires size > 0
    ensures Reach(n, size, k) == n <==> k >= CeilDiv(n, size)
  {
    ReachIs(n, size, k);
    CoversIff(n, size, k);
  }
}
