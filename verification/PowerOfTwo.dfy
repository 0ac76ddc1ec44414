/** lastPowerOfTwo of src/proc.cc: the largest power of two that is not above a number, found
    by smearing the number's highest bit over all lower ones. */
module PowerOfTwo {
  import opened Arith
  import opened Hypercube

  /** Bitwise or. */
  function Or(a: nat, b: nat): nat {
    if a == 0 && b == 0 then 0 else 2 * Or(a / 2, b / 2) + if a % 2 == 1 || b % 2 == 1 then 1 else 0
  }

  function Shr(x: nat, k: nat): nat {
    DivAtLeast(x, Pow2(k), 0);
    x / Pow2(k)
  }

  function Smear(x: nat, k: nat): nat {
    Or(Shr(x, k), x)
  }

  function LastPowerOfTwo(num: nat): nat {
    if num == 0 then 1
    else
      var up := Smear(Smear(Smear(Smear(Smear(num - 1, 1), 2), 4), 8), 16) + 1;
      if num < up then Shr(up, 1) else up
  }

  // ---- what the bits mean ------------------------------------------------------------------

  lemma {:induction false} OrBounds(a: nat, b: nat, l: nat)
    requires a < Pow2(l) && b < Pow2(l)
    ensures a <= Or(a, b) < Pow2(l) && b <= Or(a, b)
    decreases l
  {
    if l > 0 && (a > 0 || b > 0) { OrBounds(a / 2, b / 2, l - 1); }
  }

  /** Bits from d on stay, the lower ones are the or of the lower ones. */
  lemma {:induction false} OrHigh(z: nat, h: nat, low: nat, d: nat)
    requires z < Pow2(d) && low < Pow2(d)
    ensures Or(z, h * Pow2(d) + low) == h * Pow2(d) + Or(z, low)
    decreases d
  {
    if d == 0 {
      OrZero(h);
    } else {
      var m := h * Pow2(d - 1);
      assert h * Pow2(d) == 2 * m;
      OrHigh(z / 2, h, low / 2, d - 1);
      assert (2 * m + low) / 2 == m + low / 2 && (2 * m + low) % 2 == low % 2;
    }
  }

  lemma {:induction false} OrZero(h: nat)
    ensures Or(0, h) == h
    decreases h
  {
    if h > 0 { OrZero(h / 2); }
  }

  lemma {:induction false} Pow2Add(a: nat, b: nat)
    ensures Pow2(a + b) == Pow2(a) * Pow2(b)
    decreases a
  {
    if a > 0 {
      Pow2Add(a - 1, b);
      assert 2 * (Pow2(a - 1) * Pow2(b)) == 2 * Pow2(a - 1) * Pow2(b);
    }
  }

  /** The bits d .. l-1 of x are ones, and x has no higher ones. */
  predicate Top(x: nat, l: nat, d: nat) {
    d <= l && Pow2(l) <= x + Pow2(d) && x < Pow2(l)
  }

  lemma DivAtLeast(x: nat, m: nat, q: nat)
    requires m > 0 && m * q <= x
    ensures q <= x / m
  {
    var r := x / m;
    assert x == r * m + x % m;
    if r < q { MulStep(r, q, m); }
  }

  lemma DivBelow(x: nat, m: nat, q: nat)
    requires m > 0 && x < m * q
    ensures x / m < q
  {
    var r := x / m;
    assert x == r * m + x % m;
    if q < r { MulStep(q, r, m); }
  }

  /** Smearing by as many places as there are ones doubles them. */
  lemma SmearDoubles(x: nat, l: nat, d: nat, w: nat)
    requires Top(x, l, d) && d + w == l && d > 0
    ensures Top(Smear(x, w), l, if w <= d then d - w else 0)
  {
    var z := Shr(x, w);
    Pow2Add(w, d);
    DivBelow(x, Pow2(w), Pow2(d));
    SmearRest(x, l, d, w);
    var (h, low) := (Pow2(w) - 1, x + Pow2(d) - Pow2(l));
    Ones(Pow2(w), Pow2(d));
    OrHigh(z, h, low, d);
    OrBounds(z, low, d);
  }

  lemma Ones(a: nat, b: nat)
    requires a > 0
    ensures (a - 1) * b == a * b - b
  {
  }

  /** What the shifted number holds below bit d. */
  lemma SmearRest(x: nat, l: nat, d: nat, w: nat)
    requires Top(x, l, d) && d + w == l && d > 0
    ensures Pow2(d) <= Shr(x, w) + Pow2(if w <= d then d - w else 0)
  {
    Pow2Add(w, d);
    if w <= d {
      Pow2Add(w, d - w);
      LongRest(x, Pow2(w), Pow2(d), Pow2(d - w));
    } else {
      Pow2Mono(d, w);
      ShortRest(x, Pow2(w), Pow2(d));
    }
  }

  lemma LongRest(x: nat, a: nat, b: nat, c: nat)
    requires a > 0 && a * b <= x + b && b == a * c
    ensures b <= x / a + c
  {
    if c <= b {
      assert a * (b - c) == a * b - a * c;
      DivAtLeast(x, a, b - c);
    }
  }

  lemma ShortRest(x: nat, a: nat, b: nat)
    requires 0 < b <= a && a * b <= x + b
    ensures b <= x / a + 1
  {
    assert a * (b - 1) == a * b - a;
    DivAtLeast(x, a, b - 1);
  }

  /** One step of the chain: `k` is how many ones there are, unless all are ones already. */
  lemma SmearStep(x: nat, l: nat, k: nat)
    requires Top(x, l, if k <= l then l - k else 0)
    ensures Top(Smear(x, k), l, if 2 * k <= l then l - 2 * k else 0)
  {
    if k < l {
      SmearDoubles(x, l, l - k, k);
    } else {
      assert x / Pow2(k) <= x by { DivSmall(x, Pow2(k)); }
      OrBounds(Shr(x, k), x, l);
    }
  }

  lemma DivSmall(x: nat, m: nat)
    requires m > 0
    ensures x / m <= x
  {
    var r := x / m;
    assert x == r * m + x % m;
    if 0 < r { assert r * m >= r by { MulStep(0, m, r); assert m * r == r * m; } }
  }

  lemma {:induction false} Length(x: nat, bound: nat) returns (l: nat)
    requires 0 < x < Pow2(bound)
    ensures 0 < l <= bound && Pow2(l - 1) <= x < Pow2(l)
    decreases bound
  {
    if bound == 1 || x >= Pow2(bound - 1) {
      l := bound;
    } else {
      l := Length(x, bound - 1);
    }
  }

  /** The chain of five leaves only ones. */
  lemma ChainOfFive(x: nat, l: nat, one: nat)
    requires one == 1 && 0 < l <= 32 && Pow2(l - one) <= x < Pow2(l)
    ensures Smear(Smear(Smear(Smear(Smear(x, one), 2 * one), 4 * one), 8 * one), 16 * one) + 1 == Pow2(l)
  {
    var x1 := Smear(x, one);
    SmearStep(x, l, one);
    var x2 := Smear(x1, 2 * one);
    SmearStep(x1, l, 2 * one);
    var x4 := Smear(x2, 4 * one);
    SmearStep(x2, l, 4 * one);
    var x8 := Smear(x4, 8 * one);
    SmearStep(x4, l, 8 * one);
    var x16 := Smear(x8, 16 * one);
    SmearStep(x8, l, 16 * one);
  }

  /** The result is the power of two next to its argument, from below. */
  lemma LastPowerIs(num: nat, bits: nat) returns (k: nat)
    requires 0 < num <= Pow2(bits) && bits <= 32
    ensures LastPowerOfTwo(num) == Pow2(k) <= num < 2 * Pow2(k)
  {
    if num == 1 {
      k := 0;
      NothingToSmear();
    } else {
      var l := Length(num - 1, bits);
      ChainOfFive(num - 1, l, 1);
      k := if num < Pow2(l) then l - 1 else l;
    }
  }

  lemma NothingToSmear()
    ensures LastPowerOfTwo(1) == 1
  {
    assert forall k :: Smear(0, k) == 0;
  }
}
