/** How the host code of the ring collectives sizes slices (tcclNicStepLen, and the bound by
    lastPowerOfTwo), and when the slices of all cards fit a half of the cross buffer. */
module SliceSize {
  import opened Arith
  import opened Hypercube
  import opened PowerOfTwo
  import opened RingSchedule

  const K: nat := 1024

  /** The rounding table of tcclNicStepLen, up to its last entry of 6 MiB. */
  function Table(perRank: int): nat {
    if perRank <= 128 * K then 128 * K
    else if perRank <= 256 * K then 256 * K
    else if perRank <= 512 * K then 512 * K
    else if perRank <= 640 * K then 640 * K
    else if perRank <= 768 * K then 768 * K
    else if perRank <= 1024 * K then 1024 * K
    else if perRank <= 1536 * K then 1536 * K
    else if perRank <= 2 * K * K then 2 * K * K
    else if perRank <= 4 * K * K then 4 * K * K
    else 6 * K * K
  }

  function MaxSlice(nranks: nat, rankNum: nat): nat
    requires nranks > 0
  {
    var m := HALF / nranks * rankNum / 4 * 4;
    if m >= 8 * K * K then 8 * K * K else m
  }

  /** The slice for `perRank` bytes a rank, which may be negative. */
  function SliceFor(perRank: int, nranks: nat, rankNum: nat): nat
    requires nranks > 0
  {
    var maxSlice := MaxSlice(nranks, rankNum);
    if perRank >= maxSlice then maxSlice
    else if perRank <= 6 * K * K then Table(perRank)
    else maxSlice
  }

  const INT_LIMIT: int := 0x8000_0000

  /** A size_t passed as an int of 32 bits. */
  function AsInt(x: nat): (w: int)
    ensures -INT_LIMIT <= w < INT_LIMIT
  {
    var low := x % (2 * INT_LIMIT);
    if low < INT_LIMIT then low else low - 2 * INT_LIMIT
  }

  /** Division that truncates towards zero. */
  function Quotient(w: int, d: nat): int
    requires d > 0
  {
    if w >= 0 then w / d else -(-w / d)
  }

  /** tcclNicStepLen, whose parameter for the data size is an int. */
  function NicStepLen(dataSize: nat, nranks: nat, rankNum: nat): nat
    requires nranks > 0
  {
    SliceFor(Quotient(AsInt(dataSize), nranks), nranks, rankNum)
  }

  /** The slice of AllGather and ReduceScatter. */
  function CollectiveSlice(n: nat): nat
    requires n > 0
  {
    var (suggest, byCross) := (4 * K * K, LastPowerOfTwo(HALF / n));
    if suggest < byCross then suggest else byCross
  }

  // ---- AllReduce: for which card counts every size fits ---------------------------------------

  ghost predicate EverySizeFits(n: nat, rankNum: nat)
    requires n * rankNum > 0
  {
    forall dataSize: nat :: n * NicStepLen(dataSize, n * rankNum, rankNum) <= HALF
  }

  predicate Listed(n: nat) {
    n in {1, 2, 3, 4, 5, 8, 16, 32, 64, 128, 256}
  }

  /** The slices of all cards fit the half buffer whatever the data size, exactly for these
      card counts; the number of ranks is an int, too. */
  lemma CardCountsThatFit(n: nat, rankNum: nat)
    requires n > 0 && 0 < rankNum <= 4 && n * rankNum < INT_LIMIT
    ensures n * rankNum > 0
    ensures EverySizeFits(n, rankNum) <==> Listed(n)
  {
    Positive(n, rankNum);
    if Listed(n) {
      forall dataSize: nat ensures n * NicStepLen(dataSize, n * rankNum, rankNum) <= HALF {
        ListedFits(dataSize, n, rankNum);
      }
    } else {
      var dataSize := SizeThatOverflows(n, rankNum);
    }
  }

  lemma SizeThatOverflows(n: nat, rankNum: nat) returns (dataSize: nat)
    requires n > 0 && 0 < rankNum <= 4 && 0 < n * rankNum < INT_LIMIT && !Listed(n)
    ensures n * NicStepLen(dataSize, n * rankNum, rankNum) > HALF
  {
    if MaxSlice(n * rankNum, rankNum) == 0 {
      MaxSliceReaches(n, rankNum);
      dataSize := INT_LIMIT;
      DivAtLeast(INT_LIMIT, n * rankNum, 1);
      Scale(128 * K, 257, n);
    } else {
      var perRank := TooLarge(n);
      Overflows(n, rankNum, perRank);
      dataSize := SizeOf(n, rankNum, perRank);
    }
  }

  lemma Commute(a: nat, b: nat)
    ensures a * b == b * a
  {
  }

  lemma SizeOf(n: nat, rankNum: nat, perRank: nat) returns (dataSize: nat)
    requires n > 0 && 0 < rankNum <= 4 && n * rankNum > 0 && (perRank == 0 || n * (perRank + 7) <= HALF)
    ensures Quotient(AsInt(dataSize), n * rankNum) == perRank
  {
    var share := n * perRank;
    assert share <= HALF by { if perRank > 0 { Scale(n, perRank, perRank + 7); } }
    dataSize := rankNum * share;
    Scale(share, rankNum, 4);
    Regroup(rankNum, n, perRank);
    Regroup(perRank, n, rankNum);
    Commute(perRank, rankNum);
    DivUnique(n * rankNum, dataSize, perRank, 0);
  }

  lemma Positive(a: nat, b: nat)
    requires a > 0 && b > 0
    ensures a * b > 0
  {
  }

  lemma MaxSliceFits(n: nat, rankNum: nat)
    requires n > 0 && rankNum > 0 && n * rankNum > 0
    ensures n * MaxSlice(n * rankNum, rankNum) <= HALF
  {
    var q := HALF / (n * rankNum);
    assert HALF == q * (n * rankNum) + HALF % (n * rankNum);
    Regroup(n, q, rankNum);
    var m := q * rankNum / 4 * 4;
    assert m <= q * rankNum;
    Scale(n, m, q * rankNum);
    Scale(n, MaxSlice(n * rankNum, rankNum), m);
  }

  lemma Scale(n: nat, a: nat, b: nat)
    requires a <= b
    ensures n * a <= n * b
  {
  }

  lemma ListedFits(dataSize: nat, n: nat, rankNum: nat)
    requires Listed(n) && rankNum > 0
    ensures n * rankNum > 0 && n * NicStepLen(dataSize, n * rankNum, rankNum) <= HALF
  {
    Positive(n, rankNum);
    MaxSliceFits(n, rankNum);
    var maxSlice := MaxSlice(n * rankNum, rankNum);
    var perRank := Quotient(AsInt(dataSize), n * rankNum);
    if perRank < maxSlice && perRank <= 6 * K * K { TableFits(perRank, n, maxSlice); }
  }

  lemma TableFits(perRank: int, n: nat, maxSlice: nat)
    requires Listed(n) && perRank < maxSlice && n * maxSlice <= HALF
    ensures n * Table(perRank) <= HALF
  {
    if perRank >= 0 { Scale(n, perRank + 1, maxSlice); }
  }

  /** The greatest slice is short of an equal share by less than 7 bytes, if not cut to 8 MiB. */
  lemma MaxSliceReaches(n: nat, rankNum: nat)
    requires n > 0 && 0 < rankNum <= 4 && n * rankNum > 0
    ensures MaxSlice(n * rankNum, rankNum) == 8 * K * K || n * (MaxSlice(n * rankNum, rankNum) + 7) > HALF
  {
    var d := n * rankNum;
    ReachesShare(n, rankNum, d, HALF / d);
  }

  lemma ReachesShare(n: nat, rankNum: nat, d: nat, q: nat)
    requires n > 0 && 0 < rankNum <= 4 && d == n * rankNum > 0 && q == HALF / d
    ensures MaxSlice(d, rankNum) == 8 * K * K || n * (MaxSlice(d, rankNum) + 7) > HALF
  {
    var share := q * rankNum;
    DivRest(HALF, d);
    Share(n, rankNum, d, q, share);
    assert MaxSlice(d, rankNum) == if share / 4 * 4 >= 8 * K * K then 8 * K * K else share / 4 * 4;
  }

  lemma DivRest(x: nat, d: nat)
    requires d > 0
    ensures x < x / d * d + d
  {
    assert x == x / d * d + x % d;
  }

  lemma Regroup(n: nat, q: nat, r: nat)
    ensures n * (q * r) == q * (n * r)
  {
  }

  lemma Distribute(n: nat, a: nat, b: nat)
    ensures n * (a + b) == n * a + n * b
  {
  }

  lemma Share(n: nat, rankNum: nat, d: nat, q: nat, share: nat)
    requires rankNum <= 4 && d == n * rankNum && share == q * rankNum
    ensures q * d + d <= n * (share / 4 * 4 + 7)
  {
    Regroup(n, q, rankNum);
    Scale(n, share + rankNum, share / 4 * 4 + 7);
    Distribute(n, share, rankNum);
  }

  /** A size just above a table entry that would still fit. */
  function TooLargeSize(n: nat): nat {
    if n <= 7 then 4 * K * K + 1
    else if n <= 15 then 2 * K * K + 1
    else if n <= 21 then 1536 * K + 1
    else if n <= 31 then 1024 * K + 1
    else if n <= 42 then 768 * K + 1
    else if n <= 51 then 640 * K + 1
    else if n <= 63 then 512 * K + 1
    else if n <= 127 then 256 * K + 1
    else if n <= 255 then 128 * K + 1
    else 0
  }

  lemma TooLarge(n: nat) returns (perRank: nat)
    requires n > 0 && !Listed(n)
    ensures n * Table(perRank) > HALF && perRank <= 6 * K * K
    ensures perRank == 0 || (n * (perRank + 7) <= HALF && perRank < 8 * K * K)
  {
    perRank := TooLargeSize(n);
    if n > 256 { Scale(128 * K, 257, n); }
  }

  lemma Overflows(n: nat, rankNum: nat, perRank: nat)
    requires n > 0 && 0 < rankNum <= 4 && n * rankNum > 0 && MaxSlice(n * rankNum, rankNum) > 0
    requires n * Table(perRank) > HALF && perRank <= 6 * K * K
    requires perRank == 0 || (n * (perRank + 7) <= HALF && perRank < 8 * K * K)
    ensures n * SliceFor(perRank, n * rankNum, rankNum) > HALF
  {
    MaxSliceReaches(n, rankNum);
    var maxSlice := MaxSlice(n * rankNum, rankNum);
    if maxSlice <= perRank { Scale(n, maxSlice + 7, perRank + 7); }
  }

  /** With six cards of four ranks, 5 000 000 bytes per rank are rounded up to 6 MiB, and six such
      slots overflow the half buffer. */
  lemma SixCardsOverflow()
    ensures 6 * NicStepLen(120_000_000, 6 * 4, 4) > HALF
  {
  }

  /** On a card count that fits, a slice holds an element of any type. */
  lemma SliceHoldsElements(dataSize: nat, n: nat, rankNum: nat)
    requires Listed(n) && 0 < rankNum <= 4
    ensures n * rankNum > 0 && NicStepLen(dataSize, n * rankNum, rankNum) >= 8
  {
    Positive(n, rankNum);
    MaxSliceReaches(n, rankNum);
    var maxSlice := MaxSlice(n * rankNum, rankNum);
    if maxSlice < 8 { Scale(n, maxSlice + 7, 14); }
  }

  // ---- AllGather and ReduceScatter --------------------------------------------------------------

  /** The power of two below an equal share always fits, as long as there is a byte for
      everyone, and fills more than half the buffer unless the slice is cut to 4 MiB. */
  lemma CollectiveSliceFits(n: nat)
    requires n > 0
    ensures CollectiveSlice(n) > 0
    ensures n * CollectiveSlice(n) <= HALF <==> n <= HALF
    ensures n <= HALF && CollectiveSlice(n) < 4 * K * K ==> HALF < n * (2 * CollectiveSlice(n))
  {
    var num := HALF / n;
    if n <= HALF {
      ShareIs(n, num);
      HalfBits();
      var k := LastPowerIs(num, 25);
      Scale(n, CollectiveSlice(n), num);
      if CollectiveSlice(n) < 4 * K * K { Scale(n, num + 1, 2 * CollectiveSlice(n)); }
    } else {
      NoShare(n);
    }
  }

  lemma ShareIs(n: nat, num: nat)
    requires 0 < n <= HALF && num == HALF / n
    ensures 0 < num <= HALF && n * num <= HALF < n * (num + 1)
  {
    assert HALF == n * num + HALF % n;
    DivAtLeast(HALF, n, 1);
    DivSmall(HALF, n);
  }

  lemma NoShare(n: nat)
    requires n > HALF
    ensures HALF / n == 0
  {
    DivUnique(n, HALF, 0, HALF);
  }

  lemma HalfBits()
    ensures HALF == Pow2(25)
  {
    Pow2Add(5, 5);
    Pow2Add(10, 10);
    Pow2Add(20, 5);
  }

  // ---- the direct AllReduce --------------------------------------------------------------------

  /** tcclGetStepLen. */
  function StepLen(dataSize: int, nranks: nat): nat
    requires nranks > 0
  {
    var share := HALF / nranks / 4 * 4;
    var perRank := Quotient(dataSize, nranks);
    if nranks <= 32 && dataSize < 128 * K * K && perRank <= 2 * K * K then Table(perRank) else share
  }

  /** The direct AllReduce, dispatched on four cards only, has slices that fit the half buffer
      for every data size and any number of ranks of a card. */
  lemma DirectSlicesFit(dataSize: int, rankNum: nat)
    requires rankNum > 0
    ensures 4 * StepLen(dataSize, 4 * rankNum) <= HALF
  {
    EqualShare(HALF, 4, 4 * rankNum);
  }

  lemma EqualShare(x: nat, n: nat, nranks: nat)
    requires 0 < n <= nranks
    ensures n * (x / nranks) <= x
  {
    var q := x / nranks;
    assert x == q * nranks + x % nranks;
    Scale(q, n, nranks);
    Commute(q, n);
  }
}
