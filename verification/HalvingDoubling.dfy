/** The halving-doubling schedule of the small AllReduce (tcclSmallSizeBFMut in
    src/enqueue.cc): which bytes move, what every byte becomes, and for exactly which
    sizes that is the complete reduction.

    Rounds are taken as synchronous: the waits that make them so are in the resident
    device kernel. */
module HalvingDoubling {
  import opened Arith
  import opened Hypercube
  import opened Memory
  import opened Terms
  import Doubling
  import DoublingData

  // ---- sizes and offsets as the loops compute them ----------------------------------

  /** trans_dsize in halving round i. */
  function Trans(size: nat, i: nat): nat {
    if i == 0 then size / 2 else Trans(size, i - 1) / 2
  }

  /** step_offset of card c before halving round i. */
  function Offset(size: nat, c: nat, i: nat): nat {
    if i == 0 then 0 else Offset(size, c, i - 1) + if Bit(c, i - 1) == 0 then 0 else Trans(size, i - 1)
  }

  /** trans_dsize in doubling round i, and after the halving rounds when i == lg. */
  function BackTrans(size: nat, lg: nat, i: nat): nat
    requires i <= lg
    decreases lg - i
  {
    if i == lg then Trans(size, lg) else 2 * BackTrans(size, lg, i + 1)
  }

  /** step_offset of card c in doubling round i. */
  function BackOffset(size: nat, lg: nat, c: nat, i: nat): (o: nat)
    requires i <= lg
    ensures o >= Offset(size, c, i)
    decreases lg - i
  {
    if i == lg then Offset(size, c, lg)
    else
      BackTransBound(size, lg, i);
      BackOffset(size, lg, c, i + 1) - if Bit(c, i) == 0 then 0 else BackTrans(size, lg, i)
  }

  lemma {:induction false} BackTransBound(size: nat, lg: nat, i: nat)
    requires i <= lg
    ensures BackTrans(size, lg, i) <= Trans(size, i)
    decreases lg - i
  {
    if i < lg { BackTransBound(size, lg, i + 1); }
  }

  lemma BackStep(size: nat, lg: nat, c: nat, i: nat)
    requires i < lg
    ensures BackOffset(size, lg, c, i) + (if Bit(c, i) == 0 then 0 else BackTrans(size, lg, i))
      == BackOffset(size, lg, c, i + 1)
  {
  }

  /** Bytes of the own block that card c sends, as offset and length. */
  function Sent(size: nat, c: nat, i: nat): Region {
    Region(Offset(size, c, i) + if Bit(c, i) == 0 then Trans(size, i) else 0, Trans(size, i))
  }

  function SentBack(size: nat, lg: nat, c: nat, i: nat): Region
    requires i < lg
  {
    Region(BackOffset(size, lg, c, i) + if Bit(c, i) == 0 then 0 else BackTrans(size, lg, i), BackTrans(size, lg, i))
  }

  // ---- the host code -------------------------------------------------------------------

  datatype Op =
    | WaitFlag(step: nat, value: nat)
    | P2p(src: Region, to: nat, dst: Region)
    | P2pFlag(step: nat, to: nat, slot: nat)

  function Shift(r: Region, base: nat): Region {
    Region(base + r.off, r.len)
  }

  /** Halving round i: into the block of card c on the peer. */
  function HalveOps(size: nat, c: nat, half: nat, cnt: nat, i: nat): seq<Op> {
    var (peer, at) := (Flip(c, i), Shift(Sent(size, c, i), half + Times(c, size)));
    [WaitFlag(i, cnt + i + 1), P2p(at, peer, at), P2pFlag(i, peer, (cnt + i + 1) % Doubling.DEV_NUM)]
  }

  /** Doubling round i, which is step 2 * lg - 1 - i: into the peer's own block. */
  function DoubleOps(size: nat, lg: nat, c: nat, half: nat, cnt: nat, i: nat): seq<Op>
    requires i < lg
  {
    var (peer, step, r) := (Flip(c, i), 2 * lg - 1 - i, SentBack(size, lg, c, i));
    [WaitFlag(step, cnt + step + 1), P2p(Shift(r, half + Times(c, size)), peer, Shift(r, half + Times(peer, size))),
     P2pFlag(step, peer, (cnt + step + 1) % Doubling.DEV_NUM)]
  }

  function Halving(size: nat, c: nat, half: nat, cnt: nat, i: nat): seq<Op> {
    if i == 0 then [] else Halving(size, c, half, cnt, i - 1) + HalveOps(size, c, half, cnt, i - 1)
  }

  /** Doubling rounds lg-1 down to i. */
  function DoublingOps(size: nat, lg: nat, c: nat, half: nat, cnt: nat, i: nat): seq<Op>
    requires i <= lg
    decreases lg - i
  {
    if i == lg then [] else DoublingOps(size, lg, c, half, cnt, i + 1) + DoubleOps(size, lg, c, half, cnt, i)
  }

  class MutComm {
    const lg: nat
    const card: nat
    var peercnt: nat
    var graphStepNo: nat
    var nodes: seq<Op>

    constructor (lg: nat, card: nat)
      requires card < Pow2(lg)
      ensures this.lg == lg && this.card == card && peercnt == graphStepNo == 0 && nodes == []
    {
      this.lg, this.card, peercnt, graphStepNo, nodes := lg, card, 0, 0, [];
    }

    function HalfBase(): nat
      reads this`graphStepNo
    {
      graphStepNo % 2 * (Doubling.SMALL_BUFF_SIZE / 2)
    }

    method HalvingRound(step: nat, stride: nat, size: nat, transDsize: nat, stepOffset: nat, ghost cnt: nat)
      returns (offset: nat, trans: nat)
      requires stride == Pow2(step) && peercnt == cnt + step
      requires transDsize == Trans(size, step) && stepOffset == Offset(size, card, step)
      modifies this`peercnt, this`nodes
      ensures peercnt == cnt + step + 1
      ensures offset == Offset(size, card, step + 1) && trans == Trans(size, step + 1)
      ensures nodes == old(nodes) + HalveOps(size, card, HalfBase(), cnt, step)
    {
      PeerIsFlip(card, step);
      SideIsBit(card, step);
      TimesIs(card, size);
      var peerId: nat := PeerOf(card, stride);
      var isRight := !(card % (2 * stride) + stride < 2 * stride);
      var cardStepOffset := card * size + stepOffset + if isRight then 0 else transDsize;
      var at := Region(HalfBase() + cardStepOffset, transDsize);
      peercnt := peercnt + 1;
      nodes := nodes + [WaitFlag(step, peercnt)];
      nodes := nodes + [P2p(at, peerId, at)];
      nodes := nodes + [P2pFlag(step, peerId, peercnt % Doubling.DEV_NUM)];
      offset := stepOffset + if isRight then transDsize else 0;
      trans := transDsize / 2;
    }

    /** `within` bytes into the block of a card, in the half in use. */
    function Within(c: nat, size: nat, within: nat, len: nat): (at: Region)
      reads this`graphStepNo
      ensures at == Region(HalfBase() + (Times(c, size) + within), len)
    {
      TimesIs(c, size);
      Region(HalfBase() + (c * size + within), len)
    }

    method DoublingRound(i: nat, step: nat, stride: nat, size: nat, transDsize: nat, stepOffset: nat, ghost cnt: nat)
      returns (offset: nat, trans: nat)
      requires i < lg && step == 2 * lg - 1 - i && stride == Pow2(i) && peercnt == cnt + step
      requires transDsize == BackTrans(size, lg, i + 1) && stepOffset == BackOffset(size, lg, card, i + 1)
      modifies this`peercnt, this`nodes
      ensures peercnt == cnt + step + 1
      ensures offset == BackOffset(size, lg, card, i) && trans == BackTrans(size, lg, i)
      ensures nodes == old(nodes) + DoubleOps(size, lg, card, HalfBase(), cnt, i)
    {
      PeerIsFlip(card, i);
      SideIsBit(card, i);
      trans := transDsize * 2;
      var peerId: nat := PeerOf(card, stride);
      var isRight := !(card % (2 * stride) + stride < 2 * stride);
      BackStep(size, lg, card, i);
      offset := stepOffset - if isRight then trans else 0;
      var within := offset + if isRight then trans else 0;
      peercnt := peercnt + 1;
      nodes := nodes + [WaitFlag(step, peercnt)];
      var src, dst := Within(card, size, within, trans), Within(peerId, size, within, trans);
      nodes := nodes + [P2p(src, peerId, dst)];
      nodes := nodes + [P2pFlag(step, peerId, peercnt % Doubling.DEV_NUM)];
    }

    method SmallSizeBFMut(size: nat)
      requires card < Pow2(lg) && lg >= 1
      modifies this`peercnt, this`nodes
      ensures peercnt == old(peercnt) + 2 * lg
      ensures nodes == old(nodes) + Halving(size, card, HalfBase(), old(peercnt), lg)
                                  + DoublingOps(size, lg, card, HalfBase(), old(peercnt), 0)
    {
      var step, stride, transDsize, stepOffset := HalvingPhase(size);
      stride := stride / 2;
      DoublingPhase(size, step, stride, transDsize, stepOffset, old(peercnt));
    }

    method HalvingPhase(size: nat) returns (step: nat, stride: nat, transDsize: nat, stepOffset: nat)
      requires card < Pow2(lg) && lg >= 1
      modifies this`peercnt, this`nodes
      ensures step == lg && stride == Pow2(lg) && peercnt == old(peercnt) + lg
      ensures transDsize == Trans(size, lg) && stepOffset == Offset(size, card, lg)
      ensures nodes == old(nodes) + Halving(size, card, HalfBase(), old(peercnt), lg)
    {
      var cardNum := Pow2(lg);
      stride, step := 1, 0;
      transDsize, stepOffset := size / 2, 0;
      while stride < cardNum
        invariant step <= lg && stride == Pow2(step) && peercnt == old(peercnt) + step
        invariant transDsize == Trans(size, step) && stepOffset == Offset(size, card, step)
        invariant nodes == old(nodes) + Halving(size, card, HalfBase(), old(peercnt), step)
        decreases lg - step
      {
        if step == lg { assert false; }
        stepOffset, transDsize := HalvingRound(step, stride, size, transDsize, stepOffset, old(peercnt));
        step := step + 1;
        stride := stride * 2;
      }
      if step < lg { Pow2Mono(step, lg); }
    }

    method DoublingPhase(size: nat, step0: nat, stride0: nat, trans0: nat, offset0: nat, ghost cnt: nat)
      requires lg >= 1 && step0 == lg && stride0 == Pow2(lg - 1) && peercnt == cnt + lg
      requires trans0 == Trans(size, lg) && offset0 == Offset(size, card, lg)
      modifies this`peercnt, this`nodes
      ensures peercnt == cnt + 2 * lg
      ensures nodes == old(nodes) + DoublingOps(size, lg, card, HalfBase(), cnt, 0)
    {
      var step, stride, transDsize, stepOffset := step0, stride0, trans0, offset0;
      while stride >= 1
        invariant lg <= step <= 2 * lg && peercnt == cnt + step
        invariant if step == 2 * lg then stride == 0 else stride == Pow2(2 * lg - step - 1)
        invariant transDsize == BackTrans(size, lg, 2 * lg - step)
        invariant stepOffset == BackOffset(size, lg, card, 2 * lg - step)
        invariant nodes == old(nodes) + DoublingOps(size, lg, card, HalfBase(), cnt, 2 * lg - step)
        decreases 2 * lg - step
      {
        stepOffset, transDsize := DoublingRound(2 * lg - 1 - step, step, stride, size, transDsize, stepOffset, cnt);
        step := step + 1;
        stride := stride / 2;
      }
    }
  }

  // ---- what every byte becomes -----------------------------------------------------------

  predicate In(x: nat, r: Region) {
    r.off <= x < r.off + r.len
  }

  /** Byte x of card c's own block after i halving rounds: a received byte is reduced onto it. */
  function Halved(size: nat, c: nat, x: nat, i: nat): Term
    decreases i
  {
    if i == 0 then Leaf(c, x, 0)
    else
      var (j, peer) := (i - 1, Flip(c, i - 1));
      if In(x, Sent(size, peer, j)) then Node(Halved(size, c, x, j), Halved(size, peer, x, j))
      else Halved(size, c, x, j)
  }

  /** The same after doubling rounds lg-1 down to i: a received byte replaces it. */
  function Restored(size: nat, lg: nat, c: nat, x: nat, i: nat): Term
    requires i <= lg
    decreases lg - i
  {
    if i == lg then Halved(size, c, x, lg)
    else
      var peer := Flip(c, i);
      if In(x, SentBack(size, lg, peer, i)) then Restored(size, lg, peer, x, i + 1)
      else Restored(size, lg, c, x, i + 1)
  }

  // ---- offsets: card and peer ------------------------------------------------------------

  lemma {:induction false} OffsetSame(size: nat, c: nat, d: nat, i: nat)
    requires forall j :: 0 <= j < i ==> Bit(c, j) == Bit(d, j)
    ensures Offset(size, c, i) == Offset(size, d, i)
    decreases i
  {
    if i > 0 {
      assert Bit(c, i - 1) == Bit(d, i - 1);
      OffsetSame(size, c, d, i - 1);
    }
  }

  /** Card and peer have the same offset in every halving round, for any size; and what one
      sends is, in that round, what the other keeps. */
  lemma PeerOffset(size: nat, c: nat, i: nat)
    ensures Offset(size, Flip(c, i), i) == Offset(size, c, i)
    ensures Sent(size, Flip(c, i), i) == Region(Offset(size, c, i + 1), Trans(size, i))
    ensures !Overlap(Sent(size, c, i), Sent(size, Flip(c, i), i))
  {
    forall j | 0 <= j < i ensures Bit(Flip(c, i), j) == Bit(c, j) { FlipBits(c, i, j); }
    OffsetSame(size, Flip(c, i), c, i);
    FlipBits(c, i, i);
    BitRange(c, i);
  }

  // ---- sizes that divide -------------------------------------------------------------------

  /** 2 * cards divides the size. */
  predicate Divides(size: nat, lg: nat) {
    size % (2 * Pow2(lg)) == 0
  }

  /** A size that divides splits without rest in every round, and only such a size does. */
  lemma {:induction false} HalvesExactly(size: nat, lg: nat)
    ensures Divides(size, lg) <==> size % 2 == 0 && forall i :: 0 <= i < lg ==> Trans(size, i) % 2 == 0
    ensures size / (2 * Pow2(lg)) == Trans(size, lg)
    decreases lg
  {
    if lg > 0 {
      HalvesExactly(size, lg - 1);
      var m := 2 * Pow2(lg - 1);
      HalfQuotient(size, m);
      assert Trans(size, lg - 1) == size / m;
    }
  }

  lemma HalfQuotient(x: nat, m: nat)
    requires m > 0
    ensures x / (2 * m) == x / m / 2
    ensures x % (2 * m) == 0 <==> x % m == 0 && x / m % 2 == 0
  {
    var (q, r) := (x / m, x % m);
    var (h, b) := (q / 2, q % 2);
    TwiceAndRest(q, h, b, m);
    if b == 0 { DivUnique(2 * m, x, h, r); } else { DivUnique(2 * m, x, h, m + r); }
  }

  lemma TwiceAndRest(q: nat, h: nat, b: nat, m: nat)
    requires q == 2 * h + b && b <= 1
    ensures q * m == h * (2 * m) + if b == 0 then 0 else m
  {
    assert h * (2 * m) == 2 * h * m;
    assert (2 * h + b) * m == 2 * h * m + b * m;
  }

  ghost predicate Splits(size: nat, lg: nat) {
    size % 2 == 0 && forall i :: 0 <= i < lg ==> Trans(size, i) % 2 == 0
  }

  /** The doubling rounds retrace the halving rounds; the offset returns to 0. */
  lemma {:induction false} Retraces(size: nat, lg: nat, c: nat, i: nat)
    requires Splits(size, lg) && i <= lg
    ensures BackTrans(size, lg, i) == Trans(size, i) && BackOffset(size, lg, c, i) == Offset(size, c, i)
    decreases lg - i
  {
    if i < lg { Retraces(size, lg, c, i + 1); }
  }

  // ---- kept segments -----------------------------------------------------------------------

  /** The bytes for which card c is responsible after i halving rounds. */
  function Segment(size: nat, c: nat, i: nat): Region {
    Region(Offset(size, c, i), if i == 0 then size else Trans(size, i - 1))
  }

  /** A segment splits into the one the card keeps and the one the peer keeps. */
  lemma SegmentSplits(size: nat, lg: nat, c: nat, x: nat, i: nat)
    requires Splits(size, lg) && i < lg
    ensures In(x, Segment(size, c, i)) <==> In(x, Segment(size, c, i + 1)) || In(x, Segment(size, Flip(c, i), i + 1))
    ensures !(In(x, Segment(size, c, i + 1)) && In(x, Segment(size, Flip(c, i), i + 1)))
    ensures Segment(size, Flip(c, i), i) == Segment(size, c, i)
    ensures Sent(size, Flip(c, i), i) == Segment(size, c, i + 1)
    ensures SentBack(size, lg, Flip(c, i), i) == Segment(size, Flip(c, i), i + 1)
  {
    PeerOffset(size, c, i);
    FlipBits(c, i, i);
    BitRange(c, i);
    if i > 0 { assert Trans(size, i - 1) % 2 == 0; }
    Retraces(size, lg, Flip(c, i), i);
  }

  /** Whose segment a byte is in after all halving rounds. */
  function Owner(size: nat, lg: nat, c: nat, x: nat, i: nat): nat
    requires i <= lg
    decreases lg - i
  {
    if i == lg then c
    else if In(x, Segment(size, c, i + 1)) then Owner(size, lg, c, x, i + 1)
    else Owner(size, lg, Flip(c, i), x, i + 1)
  }

  lemma {:induction false} OwnerHas(size: nat, lg: nat, c: nat, x: nat, i: nat)
    requires Splits(size, lg) && i <= lg && c < Pow2(lg) && In(x, Segment(size, c, i))
    ensures Owner(size, lg, c, x, i) < Pow2(lg) && In(x, Segment(size, Owner(size, lg, c, x, i), lg))
    decreases lg - i
  {
    if i < lg {
      SegmentSplits(size, lg, c, x, i);
      FlipInRange(c, i, lg);
      OwnerHas(size, lg, if In(x, Segment(size, c, i + 1)) then c else Flip(c, i), x, i + 1);
    }
  }

  /** Segments that share a byte after i rounds belong to cards that agree in i bits. */
  lemma {:induction false} SharedByte(size: nat, lg: nat, c: nat, d: nat, x: nat, i: nat)
    requires Splits(size, lg) && i <= lg && In(x, Segment(size, c, i)) && In(x, Segment(size, d, i))
    ensures forall j :: 0 <= j < i ==> Bit(c, j) == Bit(d, j)
    decreases i
  {
    if i > 0 {
      SegmentSplits(size, lg, c, x, i - 1);
      SegmentSplits(size, lg, d, x, i - 1);
      SharedByte(size, lg, c, d, x, i - 1);
      OffsetSame(size, c, d, i - 1);
      BitRange(c, i - 1);
      BitRange(d, i - 1);
    }
  }

  /** After the halving rounds the kept segments partition the data: every byte is in the
      segment of exactly one card. */
  lemma SegmentsPartition(size: nat, lg: nat, x: nat, c: nat)
    requires Splits(size, lg) && x < size && c < Pow2(lg)
    ensures Owner(size, lg, 0, x, 0) < Pow2(lg)
    ensures In(x, Segment(size, c, lg)) <==> c == Owner(size, lg, 0, x, 0)
  {
    var e := Owner(size, lg, 0, x, 0);
    OwnerHas(size, lg, 0, x, 0);
    if In(x, Segment(size, c, lg)) {
      SharedByte(size, lg, c, e, x, lg);
      SameBits(c, e, lg);
    }
  }

  // ---- the result --------------------------------------------------------------------------

  /** In its segment a card holds the reduction of its group, as when whole blocks are
      reduced in every round. */
  lemma {:induction false} HalvedIs(size: nat, lg: nat, c: nat, x: nat, i: nat)
    requires Splits(size, lg) && i <= lg && In(x, Segment(size, c, i))
    ensures Halved(size, c, x, i) == DoublingData.Own(Doubling.EachRound, lg, x, c, i)
    decreases i
  {
    if i > 0 {
      SegmentSplits(size, lg, c, x, i - 1);
      HalvedIs(size, lg, c, x, i - 1);
      HalvedIs(size, lg, Flip(c, i - 1), x, i - 1);
    }
  }

  lemma {:induction false} RestoredIs(size: nat, lg: nat, c: nat, x: nat, i: nat)
    requires Splits(size, lg) && i <= lg && c < Pow2(lg) && x < size && In(x, Segment(size, c, i))
    ensures Restored(size, lg, c, x, i) == DoublingData.Own(Doubling.EachRound, lg, x, Owner(size, lg, 0, x, 0), lg)
    decreases lg - i
  {
    if i == lg {
      SegmentsPartition(size, lg, x, c);
      HalvedIs(size, lg, c, x, lg);
    } else {
      SegmentSplits(size, lg, c, x, i);
      FlipInRange(c, i, lg);
      RestoredIs(size, lg, if In(x, Segment(size, c, i + 1)) then c else Flip(c, i), x, i + 1);
    }
  }

  // ---- sizes that do not divide --------------------------------------------------------------

  /** How many contributions a value is made of. */
  function Weight(t: Term): nat {
    match t
    case Junk => 0
    case Leaf(_, _, _) => 1
    case Node(l, r) => Weight(l) + Weight(r)
  }

  lemma {:induction false} WeightBound(size: nat, c: nat, x: nat, i: nat)
    ensures Weight(Halved(size, c, x, i)) <= Pow2(i)
    decreases i
  {
    if i > 0 {
      WeightBound(size, c, x, i - 1);
      WeightBound(size, Flip(c, i - 1), x, i - 1);
    }
  }

  lemma {:induction false} OwnWeight(lg: nat, x: nat, c: nat, i: nat)
    ensures Weight(DoublingData.Own(Doubling.EachRound, lg, x, c, i)) == Pow2(i)
    decreases i
  {
    if i > 0 {
      OwnWeight(lg, x, c, i - 1);
      OwnWeight(lg, x, Flip(c, i - 1), i - 1);
    }
  }

  lemma {:induction false} ZeroBits(i: nat)
    ensures Bit(0, i) == 0
    decreases i
  {
    if i > 0 { ZeroBits(i - 1); }
  }

  lemma {:induction false} OffsetZero(size: nat, i: nat)
    ensures Offset(size, 0, i) == 0
    decreases i
  {
    if i > 0 {
      OffsetZero(size, i - 1);
      ZeroBits(i - 1);
    }
  }

  lemma {:induction false} TransMono(size: nat, i: nat, j: nat)
    requires i < j
    ensures 2 * Trans(size, j) <= Trans(size, i)
    decreases j
  {
    if i + 1 < j { TransMono(size, i, j - 1); }
  }

  /** Card 0's peer of round i: before round i its offset is 0, after it Trans(i). */
  lemma {:induction false} PeerOfZero(size: nat, i: nat, j: nat)
    ensures Offset(size, Flip(0, i), j) == if j <= i then 0 else Trans(size, i)
    decreases j
  {
    if j > 0 {
      PeerOfZero(size, i, j - 1);
      FlipBits(0, i, j - 1);
      ZeroBits(j - 1);
    }
  }

  lemma {:induction false} PeerOfZeroBack(size: nat, lg: nat, i: nat, j: nat)
    requires i < j <= lg
    ensures BackOffset(size, lg, Flip(0, i), j) == Trans(size, i)
    decreases lg - j
  {
    if j == lg {
      PeerOfZero(size, i, lg);
    } else {
      PeerOfZeroBack(size, lg, i, j + 1);
      FlipBits(0, i, j);
      ZeroBits(j);
    }
  }

  /** What card 0 receives: bytes [0, Trans(i)) in halving round i, and bytes from Trans(i)
      on in doubling round i. */
  lemma ZeroReceives(size: nat, lg: nat, i: nat)
    requires i < lg
    ensures Sent(size, Flip(0, i), i) == Region(0, Trans(size, i))
    ensures SentBack(size, lg, Flip(0, i), i) == Region(Trans(size, i), BackTrans(size, lg, i))
  {
    PeerOfZero(size, i, i);
    PeerOfZeroBack(size, lg, i, i + 1);
    FlipBits(0, i, i);
    ZeroBits(i);
  }

  /** Byte x is untouched on card 0 by the halving rounds from j on. */
  lemma {:induction false} StaysHalved(size: nat, lg: nat, x: nat, j: nat, i: nat)
    requires j <= i <= lg && forall k :: j <= k < i ==> x >= Trans(size, k)
    ensures Halved(size, 0, x, i) == Halved(size, 0, x, j)
    decreases i
  {
    if j < i {
      ZeroReceives(size, lg, i - 1);
      StaysHalved(size, lg, x, j, i - 1);
    }
  }

  lemma {:induction false} StaysRestored(size: nat, lg: nat, x: nat, i: nat)
    requires i <= lg && forall k :: 0 <= k < lg ==> x < Trans(size, k) || x >= Trans(size, k) + BackTrans(size, lg, k)
    ensures Restored(size, lg, 0, x, i) == Halved(size, 0, x, lg)
    decreases lg - i
  {
    if i < lg {
      ZeroReceives(size, lg, i);
      StaysRestored(size, lg, x, i + 1);
    }
  }

  /** A size that does not divide leaves a byte of card 0 with at most half of the
      contributions. */
  lemma LosesByte(size: nat, lg: nat) returns (x: nat)
    requires lg >= 1 && !Divides(size, lg)
    ensures x < size && Weight(Restored(size, lg, 0, x, 0)) <= Pow2(lg - 1)
  {
    HalvesExactly(size, lg);
    if size % 2 == 1 {
      x := LosesLast(size, lg);
    } else {
      var i: nat :| i < lg && Trans(size, i) % 2 == 1;
      x := LosesOdd(size, lg, i);
    }
  }

  lemma LosesLast(size: nat, lg: nat) returns (x: nat)
    requires lg >= 1 && size % 2 == 1
    ensures x < size && Weight(Restored(size, lg, 0, x, 0)) <= Pow2(lg - 1)
  {
    x := size - 1;
    forall k | 0 <= k < lg ensures x >= Trans(size, k) + BackTrans(size, lg, k) {
      BackTransBound(size, lg, k);
      if k > 0 { TransMono(size, 0, k); }
    }
    StaysRestored(size, lg, x, 0);
    StaysHalved(size, lg, x, 0, lg);
  }

  lemma LosesOdd(size: nat, lg: nat, i: nat) returns (x: nat)
    requires i < lg && size % 2 == 0 && Trans(size, i) % 2 == 1
    ensures x < size && Weight(Restored(size, lg, 0, x, 0)) <= Pow2(lg - 1)
  {
    var last := i + 1 == lg;
    x := if last then 2 * Trans(size, i) - 1 else Trans(size, i) - 1;
    forall k | 0 <= k < lg ensures x < Trans(size, k) || x >= Trans(size, k) + BackTrans(size, lg, k) {
      BackTransBound(size, lg, k);
      if k < i { TransMono(size, k, i); }
      if k > i + 1 { TransMono(size, i + 1, k); }
    }
    StaysRestored(size, lg, x, 0);
    if i > 0 { TransMono(size, 0, i); }
    LightAfter(size, lg, x, if last then i else i + 1);
  }

  /** A byte that no halving round from j on reaches holds few contributions. */
  lemma LightAfter(size: nat, lg: nat, x: nat, j: nat)
    requires j < lg && x >= Trans(size, j)
    ensures Weight(Halved(size, 0, x, lg)) <= Pow2(lg - 1)
  {
    forall k | j <= k < lg ensures x >= Trans(size, k) { if k > j { TransMono(size, j, k); } }
    StaysHalved(size, lg, x, j, lg);
    WeightBound(size, 0, x, j);
    if j < lg - 1 { Pow2Mono(j, lg - 1); }
  }

  // ---- main results ----------------------------------------------------------------------------

  /** What byte x has to become: the reduction of all cards' contributions, bracketed as
      its owner bracketed it. */
  function Wanted(size: nat, lg: nat, x: nat): Term {
    DoublingData.Own(Doubling.EachRound, lg, x, Owner(size, lg, 0, x, 0), lg)
  }

  ghost predicate AllReduced(size: nat, lg: nat) {
    forall c: nat, x: nat :: c < Pow2(lg) && x < size ==> Restored(size, lg, c, x, 0) == Wanted(size, lg, x)
  }

  /** Every card ends with every byte reduced, and the same expression as every other card,
      exactly when twice the number of cards divides the size. */
  lemma ExactlyWhenDivides(size: nat, lg: nat)
    requires lg >= 1
    ensures AllReduced(size, lg) <==> Divides(size, lg)
  {
    HalvesExactly(size, lg);
    if Divides(size, lg) {
      forall c: nat, x: nat | c < Pow2(lg) && x < size ensures Restored(size, lg, c, x, 0) == Wanted(size, lg, x) {
        RestoredIs(size, lg, c, x, 0);
      }
    } else {
      var x := LosesByte(size, lg);
      OwnWeight(lg, x, Owner(size, lg, 0, x, 0), lg);
      assert Restored(size, lg, 0, x, 0) != Wanted(size, lg, x);
    }
  }

  /** And then every card's offset is back at 0. */
  lemma OffsetReturns(size: nat, lg: nat, c: nat)
    requires Divides(size, lg)
    ensures BackOffset(size, lg, c, 0) == 0
  {
    HalvesExactly(size, lg);
    Retraces(size, lg, c, 0);
  }

  /** When tcclSmallSizeAllreduce chooses this schedule. */
  predicate Dispatched(cardNum: nat, size: nat, count: nat, bytesOnly: bool) {
    size > 128 * 1024 && count % 4 == 0 && cardNum == 8 && !bytesOnly
  }

  function SizeOf(count: nat, typelen: nat): nat {
    if typelen == 1 then count else if typelen == 2 then 2 * count else 4 * count
  }

  /** The choice is right for 4-byte elements.  For shorter ones it asks too little: the
      count would have to be a multiple of 8, or of 16. */
  lemma DispatchIsExact(lg: nat, count: nat, typelen: nat)
    requires lg >= 1 && (typelen == 1 || typelen == 2 || typelen == 4)
    requires Dispatched(Pow2(lg), SizeOf(count, typelen), count, false)
    ensures AllReduced(SizeOf(count, typelen), lg) <==>
            typelen == 4 || (typelen == 2 && count % 8 == 0) || (typelen == 1 && count % 16 == 0)
  {
    ExactlyWhenDivides(SizeOf(count, typelen), lg);
    By16(SizeOf(count, typelen), lg);
  }

  lemma By16(size: nat, lg: nat)
    requires Pow2(lg) == 8
    ensures Divides(size, lg) <==> size % 16 == 0
  {
  }

  /** 65540 elements of 2 bytes on 8 cards are dispatched to this schedule and not fully
      reduced. */
  lemma DispatchMisses(lg: nat)
    requires lg >= 1 && Pow2(lg) == 8
    ensures Dispatched(Pow2(lg), SizeOf(65540, 2), 65540, false) && !AllReduced(SizeOf(65540, 2), lg)
  {
    DispatchIsExact(lg, 65540, 2);
  }
}
