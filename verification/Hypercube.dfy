/** Partners and groups of cards when strides double: 1, 2, 4, ...

    In round i a card exchanges with the card whose number differs in bit i; the cards
    that have exchanged with one another after i rounds form a group of Pow2(i)
    consecutive cards. */
module Hypercube {
  import opened Arith

  function Pow2(i: nat): (r: nat)
    ensures r > 0
  {
    if i == 0 then 1 else 2 * Pow2(i - 1)
  }

  /** The partner of card c in round i. */
  function Flip(c: nat, i: nat): nat {
    if i == 0 then (if c % 2 == 0 then c + 1 else c - 1) else 2 * Flip(c / 2, i - 1) + c % 2
  }

  /** First card of the group of c after i rounds. */
  function Base(c: nat, i: nat): nat {
    if i == 0 then c else 2 * Base(c / 2, i - 1)
  }

  function Bit(c: nat, i: nat): nat {
    if i == 0 then c % 2 else Bit(c / 2, i - 1)
  }

  // ---- the formulas of the source --------------------------------------------------

  /** (c + stride) % width + c / width * width, with width = 2 * stride. */
  function PeerOf(c: nat, stride: nat): int
    requires stride > 0
  {
    (c + stride) % (2 * stride) + c / (2 * stride) * (2 * stride)
  }

  lemma Doubled(x: nat, m: nat)
    requires m > 0
    ensures x / 2 / m == x / (2 * m)
    ensures x % (2 * m) == 2 * (x / 2 % m) + x % 2
  {
    var (q, r) := (x / 2 / m, x / 2 % m);
    assert x / 2 == q * m + r;
    assert x == 2 * (x / 2) + x % 2;
    assert q * (2 * m) == 2 * (q * m);
    DivUnique(2 * m, x, q, 2 * r + x % 2);
  }

  lemma PeerDoubles(c: nat, s: nat)
    requires s > 0
    ensures PeerOf(c, 2 * s) == 2 * PeerOf(c / 2, s) + c % 2
  {
    Doubled(c + 2 * s, 2 * s);
    Doubled(c, 2 * s);
    var q := c / (4 * s);
    assert q * (4 * s) == 2 * (q * (2 * s));
    assert (c + 2 * s) / 2 == c / 2 + s;
  }

  lemma GroupDoubles(c: nat, s: nat)
    requires s > 0
    ensures c / (2 * s) * (2 * s) == 2 * (c / 2 / s * s)
  {
    Doubled(c, s);
    var q := c / (2 * s);
    assert q * (2 * s) == 2 * (q * s);
  }

  /** The source's partner formula flips one bit. */
  lemma {:induction false} PeerIsFlip(c: nat, i: nat)
    ensures PeerOf(c, Pow2(i)) == Flip(c, i)
    decreases i
  {
    if i > 0 {
      PeerIsFlip(c / 2, i - 1);
      PeerDoubles(c, Pow2(i - 1));
    }
  }

  /** The source's group offset, c / stride * stride. */
  lemma {:induction false} GroupIsBase(c: nat, i: nat)
    ensures c / Pow2(i) * Pow2(i) == Base(c, i)
    decreases i
  {
    if i > 0 {
      GroupIsBase(c / 2, i - 1);
      GroupDoubles(c, Pow2(i - 1));
    }
  }

  /** Which of the two a card is, as the halving-doubling schedule asks. */
  lemma {:induction false} SideIsBit(c: nat, i: nat)
    ensures c % (2 * Pow2(i)) + Pow2(i) < 2 * Pow2(i) <==> Bit(c, i) == 0
    decreases i
  {
    if i > 0 {
      SideIsBit(c / 2, i - 1);
      Doubled(c, 2 * Pow2(i - 1));
    }
  }

  // ---- partners ----------------------------------------------------------------------

  lemma {:induction false} FlipBack(c: nat, i: nat)
    ensures Flip(Flip(c, i), i) == c && Flip(c, i) != c
    decreases i
  {
    if i > 0 {
      FlipBack(c / 2, i - 1);
      assert Flip(c, i) / 2 == Flip(c / 2, i - 1);
    }
  }

  lemma {:induction false} FlipInRange(c: nat, i: nat, lg: nat)
    requires i < lg && c < Pow2(lg)
    ensures Flip(c, i) < Pow2(lg)
    decreases i
  {
    if i > 0 { FlipInRange(c / 2, i - 1, lg - 1); }
  }

  lemma {:induction false} FlipBits(c: nat, i: nat, j: nat)
    ensures Bit(Flip(c, i), j) == if i == j then 1 - Bit(c, j) else Bit(c, j)
    decreases i
  {
    if i > 0 {
      assert Flip(c, i) / 2 == Flip(c / 2, i - 1) && Flip(c, i) % 2 == c % 2;
      if j > 0 { FlipBits(c / 2, i - 1, j - 1); }
    }
  }

  lemma {:induction false} BitRange(c: nat, i: nat)
    ensures Bit(c, i) == 0 || Bit(c, i) == 1
    decreases i
  {
    if i > 0 { BitRange(c / 2, i - 1); }
  }

  lemma {:induction false} SameBits(c: nat, d: nat, lg: nat)
    requires c < Pow2(lg) && d < Pow2(lg) && forall i :: 0 <= i < lg ==> Bit(c, i) == Bit(d, i)
    ensures c == d
    decreases lg
  {
    if lg > 0 {
      forall i | 0 <= i < lg - 1 ensures Bit(c / 2, i) == Bit(d / 2, i) {
        assert Bit(c, i + 1) == Bit(d, i + 1);
      }
      SameBits(c / 2, d / 2, lg - 1);
      assert Bit(c, 0) == Bit(d, 0);
    }
  }

  // ---- groups --------------------------------------------------------------------------

  predicate SameGroup(b: nat, c: nat, i: nat) {
    Base(b, i) == Base(c, i)
  }

  /** The group after round i is the group before it and the partner's, side by side. */
  lemma {:induction false} GroupsJoin(c: nat, i: nat)
    ensures SameGroup(Flip(c, i), c, i + 1)
    ensures if Bit(c, i) == 0 then Base(c, i) == Base(c, i + 1) && Base(Flip(c, i), i) == Base(c, i + 1) + Pow2(i)
            else Base(Flip(c, i), i) == Base(c, i + 1) && Base(c, i) == Base(c, i + 1) + Pow2(i)
    decreases i
  {
    if i > 0 {
      GroupsJoin(c / 2, i - 1);
      assert Flip(c, i) / 2 == Flip(c / 2, i - 1);
    }
  }

  lemma {:induction false} GroupsGrow(b: nat, c: nat, i: nat, j: nat)
    requires SameGroup(b, c, i) && i <= j
    ensures SameGroup(b, c, j)
    decreases j
  {
    if i > 0 {
      GroupsGrow(b / 2, c / 2, i - 1, j - 1);
    } else if j > 0 {
      GroupsGrow(b / 2, c / 2, 0, j - 1);
    }
  }

  /** Whoever joins a group in round i belongs to the partner's group. */
  lemma {:induction false} Joined(b: nat, c: nat, i: nat)
    requires SameGroup(b, c, i + 1)
    ensures SameGroup(b, c, i) || SameGroup(b, Flip(c, i), i)
    decreases i
  {
    if i > 0 {
      Joined(b / 2, c / 2, i - 1);
      assert Flip(c, i) / 2 == Flip(c / 2, i - 1);
    } else {
      assert Base(b, 1) == 2 * Base(b / 2, 0) && Base(c, 1) == 2 * Base(c / 2, 0);
    }
  }

  lemma {:induction false} GroupRange(b: nat, c: nat, i: nat)
    ensures SameGroup(b, c, i) <==> Base(c, i) <= b < Base(c, i) + Pow2(i)
    decreases i
  {
    if i > 0 { GroupRange(b / 2, c / 2, i - 1); }
  }

  lemma {:induction false} WholeGroup(c: nat, lg: nat)
    requires c < Pow2(lg)
    ensures Base(c, lg) == 0
    decreases lg
  {
    if lg > 0 { WholeGroup(c / 2, lg - 1); }
  }

  lemma {:induction false} GroupInRange(c: nat, i: nat, lg: nat)
    requires c < Pow2(lg) && i <= lg
    ensures Base(c, i) + Pow2(i) <= Pow2(lg)
    decreases i
  {
    if i > 0 { GroupInRange(c / 2, i - 1, lg - 1); }
  }

  lemma {:induction false} Pow2Mono(i: nat, j: nat)
    requires i < j
    ensures 2 * Pow2(i) <= Pow2(j)
    decreases j
  {
    if i + 1 < j { Pow2Mono(i, j - 1); }
  }
}
