/** The recursive-doubling schedules of the small AllReduce and the host code that emits
    them (src/enqueue.cc): gather everything then reduce, gather half then reduce twice,
    and reduce in every round. */
module Doubling {
  import opened Arith
  import opened Memory
  import opened Hypercube

  const DEV_NUM: nat := 4
  const SMALL_SIZE: nat := 1024 * 1024
  const SMALL_BUFF_SIZE: nat := 16 * 1024 * 1024
  const MAX_CARD_NUM: nat := 8

  datatype Kind = GatherAll | GatherHalf | EachRound

  /** A small AllReduce on Pow2(lg) cards: schedule, bytes of a block (one block a card),
      half of the small buffers in use, value of peercnt before it. */
  datatype Call = Call(kind: Kind, size: nat, half: nat, peercnt: nat)

  datatype Op =
    | LoadOwn(block: nat, first: nat)       // kernel at the head: own ranks into a block, cntflag[i] := first + i + 1
    | P2p(at: Region, to: nat)              // own small buffer to the same bytes of a peer's
    | P2pFlag(step: nat, to: nat, slot: nat)   // cntflag[step] to a peer's flag slot
    | WaitGeq(slot: nat, value: nat)
    | ReduceInto(blocks: seq<nat>, own: nat)   // blocks of the own small buffer into one of them
    | ReduceToUsers(blocks: seq<nat>)

  predicate ValidCall(lg: nat, call: Call) {
    && 1 <= lg <= 3 && call.half < 2 && 0 < call.size <= SMALL_SIZE
    && (call.kind == GatherHalf ==> lg >= 2)
  }

  /** Bytes of `count` blocks from block `first` on. */
  function Bytes(call: Call, first: nat, count: nat): Region {
    Region((if call.half == 0 then 0 else SMALL_BUFF_SIZE / 2) + Times(first, call.size), Times(count, call.size))
  }

  lemma BlockInHalf(lg: nat, call: Call, b: nat)
    requires ValidCall(lg, call) && b < Pow2(lg)
    ensures
      var (r, base) := (Bytes(call, b, 1), if call.half == 0 then 0 else SMALL_BUFF_SIZE / 2);
      base <= r.off && r.off + r.len <= base + SMALL_BUFF_SIZE / 2
  {
    TimesStep(b, Pow2(lg), call.size);
    if lg < 3 { Pow2Mono(lg, 3); }
    assert Pow2(3) == 8 by { assert Pow2(1) == 2 && Pow2(2) == 4; }
    TimesIs(Pow2(lg), call.size);
    AtMostEight(Pow2(lg), call.size);
    assert Times(1, call.size) == call.size;
  }

  lemma AtMostEight(n: nat, size: nat)
    requires n <= 8 && size <= SMALL_SIZE
    ensures n * size <= 8 * SMALL_SIZE
  {
  }

  lemma BlocksApart(call: Call, b: nat, d: nat)
    requires call.size > 0 && b != d
    ensures !Overlap(Bytes(call, b, 1), Bytes(call, d, 1))
  {
    if b < d { TimesStep(b, d, call.size); } else { TimesStep(d, b, call.size); }
    assert Times(1, call.size) == call.size;
  }

  /** The blocks of all cards are slots of one half: inside it, and apart from one another. */
  lemma BlocksAreSlots(lg: nat, call: Call, b: nat, d: nat)
    requires ValidCall(lg, call) && b < Pow2(lg) && d < Pow2(lg)
    ensures
      var (r, base) := (Bytes(call, b, 1), if call.half == 0 then 0 else SMALL_BUFF_SIZE / 2);
      && base <= r.off && r.off + r.len <= base + SMALL_BUFF_SIZE / 2
      && (b != d ==> !Overlap(r, Bytes(call, d, 1)))
  {
    BlockInHalf(lg, call, b);
    if b != d { BlocksApart(call, b, d); }
  }

  /** A push of several blocks covers exactly those blocks. */
  lemma BlocksCovered(call: Call, first: nat, count: nat, b: nat)
    requires call.size > 0
    ensures
      var (r, all) := (Bytes(call, b, 1), Bytes(call, first, count));
      && (first <= b < first + count ==> all.off <= r.off && r.off + r.len <= all.off + all.len)
      && (b < first || first + count <= b ==> !Overlap(r, all))
  {
    TimesAdds(first, count, call.size);
    assert Times(1, call.size) == call.size;
    if b < first { TimesStep(b, first, call.size); }
    else if b < first + count {
      TimesStep(b, first + count, call.size);
      if first < b { TimesStep(first, b, call.size); }
    }
    else if first + count < b { TimesStep(first + count, b, call.size); }
  }

  // ---- the schedule of one card ---------------------------------------------------

  /** Rounds in which whole groups are exchanged; in the others a card sends its own block. */
  predicate Gathers(kind: Kind, lg: nat, i: nat) {
    kind == GatherAll || (kind == GatherHalf && i + 1 < lg)
  }

  function First(kind: Kind, lg: nat, c: nat, i: nat): nat {
    if Gathers(kind, lg, i) then Base(c, i) else c
  }

  function Width(kind: Kind, lg: nat, i: nat): nat {
    if Gathers(kind, lg, i) then Pow2(i) else 1
  }

  function Blocks(first: nat, count: nat): (bs: seq<nat>)
    ensures |bs| == count && forall j :: 0 <= j < count ==> bs[j] == first + j
  {
    seq(count, j requires 0 <= j < count => first + j)
  }

  /** What follows the exchange of round i. */
  function FoldOps(kind: Kind, lg: nat, c: nat, i: nat): seq<Op> {
    match kind
    case GatherAll => if i + 1 == lg then [ReduceToUsers(Blocks(0, Pow2(lg)))] else []
    case GatherHalf =>
      if i + 1 == lg then [ReduceToUsers([c, Flip(c, i)])]
      else if i + 2 == lg then [ReduceInto(Blocks(Base(c, i + 1), Pow2(i + 1)), c)]
      else []
    case EachRound => if i + 1 == lg then [ReduceToUsers([c, Flip(c, i)])] else [ReduceInto([c, Flip(c, i)], c)]
  }

  function ExchangeOps(lg: nat, call: Call, c: nat, i: nat): seq<Op> {
    var (peer, flag) := (Flip(c, i), call.peercnt + i + 1);
    [P2p(Bytes(call, First(call.kind, lg, c, i), Width(call.kind, lg, i)), peer),
     P2pFlag(i, peer, flag % DEV_NUM), WaitGeq(flag % DEV_NUM, flag)]
  }

  /** Rounds 0..i-1. */
  function RoundsOps(lg: nat, call: Call, c: nat, i: nat): seq<Op> {
    if i == 0 then []
    else RoundsOps(lg, call, c, i - 1) + ExchangeOps(lg, call, c, i - 1) + FoldOps(call.kind, lg, c, i - 1)
  }

  // ---- the host code ---------------------------------------------------------------------

  /** A rank 0's counters and the graph nodes it updates. */
  class SmallComm {
    const lg: nat
    const card: nat
    var peercnt: nat
    var graphStepNo: nat
    var nodes: seq<Op>

    constructor (lg: nat, card: nat)
      requires card < Pow2(lg)
      ensures this.lg == lg && this.card == card && peercnt == graphStepNo == 0 && nodes == []
    {
      this.lg, this.card, peercnt, graphStepNo, nodes := lg, card, 0, 0, [];
    }

    /** Push, flag and wait of one round. */
    method Exchange(step: nat, stride: nat, first: nat, count: nat, dataSize: nat, half: nat, ghost call: Call)
      requires stride == Pow2(step) && step < lg
      requires call.size == dataSize && call.half == half < 2 && peercnt == call.peercnt + step
      requires first == First(call.kind, lg, card, step) && count == Width(call.kind, lg, step)
      modifies this`peercnt, this`nodes
      ensures peercnt == old(peercnt) + 1
      ensures nodes == old(nodes) + ExchangeOps(lg, call, card, step)
    {
      var off := half * (SMALL_BUFF_SIZE / 2);
      PeerIsFlip(card, step);
      var peerId: nat := PeerOf(card, stride);
      TimesIs(first, dataSize);
      TimesIs(count, dataSize);
      nodes := nodes + [P2p(Region(off + first * dataSize, count * dataSize), peerId)];
      peercnt := peercnt + 1;
      var flagId := peercnt % DEV_NUM;
      nodes := nodes + [P2pFlag(step, peerId, flagId)];
      nodes := nodes + [WaitGeq(flagId, peercnt)];
    }

    method PairToUsers(step: nat, stride: nat)
      requires stride == Pow2(step)
      modifies this`nodes
      ensures nodes == old(nodes) + [ReduceToUsers([card, Flip(card, step)])]
    {
      PeerIsFlip(card, step);
      var peerId: nat := PeerOf(card, stride);
      nodes := nodes + [ReduceToUsers([card, peerId])];
    }

    method ReducePair(step: nat, stride: nat, cardNum: nat)
      requires stride == Pow2(step) && step < lg && cardNum == Pow2(lg)
      modifies this`nodes
      ensures nodes == old(nodes) + FoldOps(EachRound, lg, card, step)
    {
      if step + 1 < lg { Pow2Mono(step + 1, lg); }
      if stride == cardNum / 2 {
        PairToUsers(step, stride);
      } else {
        PeerIsFlip(card, step);
        var peerId: nat := PeerOf(card, stride);
        nodes := nodes + [ReduceInto([card, peerId], card)];
      }
    }

    method SmallSizeAllreduceCard(dataSize: nat, ghost call: Call)
      requires card < Pow2(lg) && lg >= 1
      requires call == Call(GatherAll, dataSize, graphStepNo % 2, peercnt)
      modifies this`peercnt, this`nodes
      ensures peercnt == old(peercnt) + lg
      ensures nodes == old(nodes) + RoundsOps(lg, call, card, lg)
    {
      var cardNum, stride, step := Pow2(lg), 1, 0;
      ghost var was := nodes;
      while stride < cardNum
        invariant step <= lg && stride == Pow2(step) && peercnt == call.peercnt + step
        invariant nodes == was + GatherOps(lg, call, card, step)
        decreases lg - step
      {
        if step == lg { assert false; }
        GroupIsBase(card, step);
        Exchange(step, stride, card / stride * stride, stride, dataSize, graphStepNo % 2, call);
        step := step + 1;
        stride := stride * 2;
      }
      if step < lg { Pow2Mono(step, lg); }
      nodes := nodes + [ReduceToUsers(Blocks(0, cardNum))];
      GatherIsRounds(lg, call, card, lg - 1);
    }

    method SmallSizeAllreduceCard8C(dataSize: nat, ghost call: Call)
      requires card < Pow2(lg) && lg >= 2
      requires call == Call(GatherHalf, dataSize, graphStepNo % 2, peercnt)
      modifies this`peercnt, this`nodes
      ensures peercnt == old(peercnt) + lg
      ensures nodes == old(nodes) + RoundsOps(lg, call, card, lg)
    {
      ghost var was := nodes;
      var step, stride := GatherWithinHalf(dataSize, call);
      GroupIsBase(card, step);
      var offset := card / stride * stride;
      nodes := nodes + [ReduceInto(Blocks(offset, stride), card)];
      HalfGathered(lg, call, card, was, nodes);
      LastExchange(step, stride, dataSize, call);
    }

    /** The rounds that only transport. */
    method GatherWithinHalf(dataSize: nat, ghost call: Call) returns (step: nat, stride: nat)
      requires card < Pow2(lg) && lg >= 2
      requires call == Call(GatherHalf, dataSize, graphStepNo % 2, peercnt)
      modifies this`peercnt, this`nodes
      ensures step == lg - 1 && stride == Pow2(step) && peercnt == old(peercnt) + step
      ensures nodes == old(nodes) + GatherOps(lg, call, card, step)
    {
      var cardNum := Pow2(lg);
      stride, step := 1, 0;
      while stride < cardNum / 2
        invariant step <= lg - 1 && stride == Pow2(step) && peercnt == call.peercnt + step
        invariant nodes == old(nodes) + GatherOps(lg, call, card, step)
        decreases lg - step
      {
        if step == lg - 1 { assert false; }
        GroupIsBase(card, step);
        Exchange(step, stride, card / stride * stride, stride, dataSize, graphStepNo % 2, call);
        step := step + 1;
        stride := stride * 2;
      }
      if step < lg - 1 { Pow2Mono(step, lg - 1); }
    }

    /** The round that transports the computed data, and the last reduction. */
    method LastExchange(step: nat, stride: nat, dataSize: nat, ghost call: Call)
      requires lg >= 2 && step == lg - 1 && stride == Pow2(step)
      requires call == Call(GatherHalf, dataSize, graphStepNo % 2, call.peercnt) && peercnt == call.peercnt + step
      modifies this`peercnt, this`nodes
      ensures peercnt == old(peercnt) + 1
      ensures nodes == old(nodes) + ExchangeOps(lg, call, card, step) + FoldOps(GatherHalf, lg, card, step)
    {
      Exchange(step, stride, card, 1, dataSize, graphStepNo % 2, call);
      PairToUsers(step, stride);
    }

    method SmallSizeAllreduceCardCT(dataSize: nat, ghost call: Call)
      requires card < Pow2(lg) && lg >= 1
      requires call == Call(EachRound, dataSize, graphStepNo % 2, peercnt)
      modifies this`peercnt, this`nodes
      ensures peercnt == old(peercnt) + lg
      ensures nodes == old(nodes) + RoundsOps(lg, call, card, lg)
    {
      var cardNum, stride, step := Pow2(lg), 1, 0;
      ghost var was := nodes;
      while stride < cardNum
        invariant step <= lg && stride == Pow2(step) && peercnt == call.peercnt + step
        invariant nodes == was + RoundsOps(lg, call, card, step)
        decreases lg - step
      {
        if step == lg { assert false; }
        Exchange(step, stride, card, 1, dataSize, graphStepNo % 2, call);
        ReducePair(step, stride, cardNum);
        step := step + 1;
        stride := stride * 2;
      }
      if step < lg { Pow2Mono(step, lg); }
    }
  }

  /** Rounds 0..i-1 while nothing is reduced. */
  ghost function GatherOps(lg: nat, call: Call, c: nat, i: nat): seq<Op> {
    if i == 0 then [] else GatherOps(lg, call, c, i - 1) + ExchangeOps(lg, call, c, i - 1)
  }

  lemma HalfGathered(lg: nat, call: Call, c: nat, was: seq<Op>, now: seq<Op>)
    requires call.kind == GatherHalf && lg >= 2
    requires now == was + GatherOps(lg, call, c, lg - 1) + [ReduceInto(Blocks(Base(c, lg - 1), Pow2(lg - 1)), c)]
    ensures now == was + RoundsOps(lg, call, c, lg - 1)
  {
    GatherIsRounds(lg, call, c, lg - 2);
  }

  lemma {:induction false} GatherIsRounds(lg: nat, call: Call, c: nat, i: nat)
    requires call.kind != EachRound && i < lg
    requires call.kind == GatherHalf ==> i + 1 < lg
    ensures GatherOps(lg, call, c, i) == RoundsOps(lg, call, c, i)
    ensures GatherOps(lg, call, c, i + 1) + FoldOps(call.kind, lg, c, i) == RoundsOps(lg, call, c, i + 1)
    decreases i
  {
    if i > 0 {
      GatherIsRounds(lg, call, c, i - 1);
      var g := GatherOps(lg, call, c, i);
      assert g + [] == g;
    }
  }
}
