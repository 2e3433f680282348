/** Small facts about products, quotients and remainders of naturals that the
    index arithmetic of the layer needs and the solver does not find alone. */
module Arith {

  /** Multiplying both sides of `a <= b` by the same natural keeps the order. */
  lemma MulMono(a: nat, b: nat, n: nat)
    requires a <= b
    ensures a * n <= b * n
  {
    assert b * n == a * n + (b - a) * n;
  }

  /** A row-major offset `q * n + r` with `q < bigQ` and `r < n` stays below `bigQ * n`. */
  lemma MulAddBound(q: nat, n: nat, r: nat, bigQ: nat)
    requires q < bigQ && r < n
    ensures q * n + r < bigQ * n
  {
    assert q * n + n == (q + 1) * n;
    MulMono(q + 1, bigQ, n);
  }

  /** Division by `n` recovers quotient and remainder of `q * n + r`. */
  lemma DivModUnique(q: nat, n: nat, r: nat)
    requires r < n
    ensures (q * n + r) / n == q && (q * n + r) % n == r
  {
    var a := q * n + r;
    var q', r' := a / n, a % n;
    assert a == q' * n + r';
    if q' < q {
      MulMono(q' + 1, q, n);
      assert false;
    } else if q < q' {
      MulMono(q + 1, q', n);
      assert false;
    }
  }

  /** A natural below `n` is its own remainder. */
  lemma ModSmall(a: nat, n: nat)
    requires a < n
    ensures a % n == a
  {
    DivModUnique(0, n, a);
  }

  /** Stepping a remainder by one is the remainder of the successor. */
  lemma ModSucc(a: nat, n: nat)
    requires n > 0
    ensures (a % n + 1) % n == (a + 1) % n
  {
    var q, r := a / n, a % n;
    assert a == q * n + r;
    if r + 1 < n {
      DivModUnique(q, n, r + 1);
      ModSmall(r + 1, n);
    } else {
      assert a + 1 == (q + 1) * n + 0;
      DivModUnique(q + 1, n, 0);
      DivModUnique(1, n, 0);
    }
  }

  /** A cyclic position `(start + i) mod n`, stepped once, is `(start + i + 1) mod n`. */
  lemma ModStep(pos: nat, start: nat, i: nat, n: nat)
    requires n > 0 && pos == (start + i) % n
    ensures (pos + 1) % n == (start + (i + 1)) % n
  {
    ModSucc(start + i, n);
  }
}
