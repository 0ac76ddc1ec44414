/** The few facts about products and remainders that the schedules rest on. */
module Arith {
  /** The product a * b.  Offsets are written with it, which keeps products of two
      variables out of proofs that only need to know that slots are apart. */
  function Times(a: nat, b: nat): nat {
    if a == 0 then 0 else Times(a - 1, b) + b
  }

  lemma {:induction false} TimesIs(a: nat, b: nat)
    ensures Times(a, b) == a * b
    decreases a
  {
    if a > 0 {
      TimesIs(a - 1, b);
      assert a * b == (a - 1) * b + b;
    }
  }

  lemma {:induction false} TimesStep(a: nat, b: nat, n: nat)
    requires a < b
    ensures Times(a, n) + n <= Times(b, n)
    decreases b
  {
    if a + 1 < b { TimesStep(a, b - 1, n); }
  }

  lemma {:induction false} TimesAdds(a: nat, b: nat, n: nat)
    ensures Times(a + b, n) == Times(a, n) + Times(b, n)
    decreases b
  {
    if b > 0 { TimesAdds(a, b - 1, n); }
  }

  lemma {:induction false} MulStep(a: nat, b: nat, n: nat)
    requires a < b
    ensures a * n + n <= b * n
    decreases b
  {
    if a + 1 < b { MulStep(a, b - 1, n); }
    assert b * n == (b - 1) * n + n;
  }

  lemma DivUnique(n: nat, x: nat, q: nat, m: nat)
    requires n > 0 && x == q * n + m && m < n
    ensures x / n == q && x % n == m
  {
    var q', m' := x / n, x % n;
    assert x == q' * n + m';
    if q' < q { MulStep(q', q, n); } else if q < q' { MulStep(q, q', n); }
  }

  lemma ModMinus(n: nat, x: nat)
    requires n > 0 && n <= x
    ensures x % n == (x - n) % n && x / n == (x - n) / n + 1
  {
    var q, m := (x - n) / n, (x - n) % n;
    assert (q + 1) * n == q * n + n;
    DivUnique(n, x, q + 1, m);
  }

  /** Remainders of the sums the schedules write, such as `(c - i + n + 1) % n`. */
  lemma SmallMod(n: nat, x: nat)
    requires n > 0 && x < 3 * n
    ensures x % n == if x < n then x else if x < 2 * n then x - n else x - 2 * n
  {
    if n <= x {
      ModMinus(n, x);
      if 2 * n <= x { ModMinus(n, x - n); } else { DivUnique(n, x - n, 0, x - n); }
    } else {
      DivUnique(n, x, 0, x);
    }
  }
}
