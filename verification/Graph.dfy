/** The graph templates of the small AllReduce and the cursor that updates them node by
    node (src/include/graph.h, tcclGraphManagerInit in src/init.cc): what the chosen routine
    updates is, kind for kind, what the chosen template has. */
module Graph {
  import opened Hypercube
  import Doubling
  import HalvingDoubling

  datatype NodeKind = Kernel | ResideKernel | IpcP2p | MemOps

  datatype Routine = Normal | CalcLast | EachRound | Mut

  // ---- templates ------------------------------------------------------------------------

  /** A body for every stride from `stride` on that is below `bound`. */
  function ForStrides(bound: nat, stride: nat, body: seq<NodeKind>): seq<NodeKind>
    requires stride > 0
    decreases bound - stride
  {
    if stride >= bound then [] else body + ForStrides(bound, 2 * stride, body)
  }

  /** A body for stride, stride / 2, ... down to 1. */
  function ForHalves(stride: nat, body: seq<NodeKind>): seq<NodeKind> {
    if stride == 0 then [] else body + ForHalves(stride / 2, body)
  }

  const EXCHANGE: seq<NodeKind> := [IpcP2p, IpcP2p, MemOps]
  const MUT_EXCHANGE: seq<NodeKind> := [MemOps, IpcP2p, IpcP2p]

  /** The template for a routine; `many` says that there is more than one card. */
  function Template(routine: Routine, many: bool, cardNum: nat): seq<NodeKind> {
    [MemOps, if routine == Mut then ResideKernel else Kernel] + (if many then Rounds(routine, cardNum) else [])
      + [MemOps]
  }

  /** The exchanges between cards. */
  function Rounds(routine: Routine, cardNum: nat): seq<NodeKind> {
    match routine
    case Normal => ForStrides(cardNum, 1, EXCHANGE) + [Kernel]
    case CalcLast => ForStrides(cardNum / 2, 1, EXCHANGE) + [Kernel] + EXCHANGE + [Kernel]
    case EachRound => ForStrides(cardNum, 1, EXCHANGE + [Kernel])
    case Mut => ForStrides(cardNum, 1, MUT_EXCHANGE) + ForHalves(cardNum / 2, MUT_EXCHANGE)
  }

  /** The loops that fill the vector of nodes. */
  method PushForStrides(nodes0: seq<NodeKind>, bound: nat, body: seq<NodeKind>) returns (nodes: seq<NodeKind>)
    ensures nodes == nodes0 + ForStrides(bound, 1, body)
  {
    nodes := nodes0;
    var stride := 1;
    while stride < bound
      invariant stride > 0 && nodes + ForStrides(bound, stride, body) == nodes0 + ForStrides(bound, 1, body)
      decreases if stride < bound then bound - stride else 0
    {
      nodes := nodes + body;
      stride := stride * 2;
    }
  }

  method PushForHalves(nodes0: seq<NodeKind>, first: nat, body: seq<NodeKind>) returns (nodes: seq<NodeKind>)
    ensures nodes == nodes0 + ForHalves(first, body)
  {
    nodes := nodes0;
    var stride := first;
    while stride >= 1
      invariant stride >= 0 && nodes + ForHalves(stride, body) == nodes0 + ForHalves(first, body)
      decreases stride
    {
      nodes := nodes + body;
      stride := stride / 2;
    }
  }

  /** tcclGraphManagerInit, for one of its four graphs. */
  method BuildTemplate(routine: Routine, many: bool, cardNum: nat) returns (nodes: seq<NodeKind>)
    ensures nodes == Template(routine, many, cardNum)
  {
    nodes := [MemOps] + [if routine == Mut then ResideKernel else Kernel];
    if many { nodes := PushRounds(routine, nodes, cardNum); }
    nodes := nodes + [MemOps];
  }

  method PushRounds(routine: Routine, nodes0: seq<NodeKind>, cardNum: nat) returns (nodes: seq<NodeKind>)
    ensures nodes == nodes0 + Rounds(routine, cardNum)
  {
    match routine
    case Normal =>
      nodes := PushForStrides(nodes0, cardNum, EXCHANGE);
      nodes := nodes + [Kernel];
    case CalcLast =>
      nodes := PushForStrides(nodes0, cardNum / 2, EXCHANGE);
      nodes := nodes + [Kernel] + EXCHANGE + [Kernel];
    case EachRound =>
      nodes := PushForStrides(nodes0, cardNum, EXCHANGE + [Kernel]);
    case Mut =>
      nodes := PushForStrides(nodes0, cardNum, MUT_EXCHANGE);
      nodes := PushForHalves(nodes, cardNum / 2, MUT_EXCHANGE);
  }

  // ---- the cursor --------------------------------------------------------------------------

  class GraphManager {
    const nodes: seq<NodeKind>
    var tcclGraphIndex: nat

    constructor (nodes: seq<NodeKind>)
      ensures this.nodes == nodes && tcclGraphIndex == 0
    {
      this.nodes, tcclGraphIndex := nodes, 0;
    }

    method BeginModifyGraph()
      modifies this
      ensures tcclGraphIndex == 0
    {
      tcclGraphIndex := 0;
    }

    /** Sets the parameters of the next node, which must be there and of this kind. */
    method UpdateGraphNode(kind: NodeKind)
      requires tcclGraphIndex < |nodes| && nodes[tcclGraphIndex] == kind
      modifies this
      ensures tcclGraphIndex == old(tcclGraphIndex) + 1
    {
      tcclGraphIndex := tcclGraphIndex + 1;
    }

    /** Succeeds exactly when every node has been updated. */
    method EndModifyGraph() returns (ok: bool)
      modifies this
      ensures ok <==> old(tcclGraphIndex) == |nodes|
      ensures tcclGraphIndex == if ok then 0 else old(tcclGraphIndex)
    {
      if tcclGraphIndex != |nodes| { return false; }
      tcclGraphIndex := 0;
      ok := true;
    }

    /** A whole update, node kind by node kind: no update misses its node, and the end finds
        the cursor at the end. */
    method Modify(kinds: seq<NodeKind>) returns (ok: bool)
      requires kinds == nodes
      modifies this
      ensures ok && tcclGraphIndex == 0
    {
      BeginModifyGraph();
      for k := 0 to |kinds|
        invariant tcclGraphIndex == k
      {
        UpdateGraphNode(kinds[k]);
      }
      ok := EndModifyGraph();
    }
  }

  // ---- what the routines update ----------------------------------------------------------------

  function KindOf(op: Doubling.Op): NodeKind {
    match op
    case LoadOwn(_, _) => Kernel
    case P2p(_, _) => IpcP2p
    case P2pFlag(_, _, _) => IpcP2p
    case WaitGeq(_, _) => MemOps
    case ReduceInto(_, _) => Kernel
    case ReduceToUsers(_) => Kernel
  }

  function Kinds(ops: seq<Doubling.Op>): (ks: seq<NodeKind>)
    ensures |ks| == |ops| && forall k :: 0 <= k < |ops| ==> ks[k] == KindOf(ops[k])
  {
    seq(|ops|, k requires 0 <= k < |ops| => KindOf(ops[k]))
  }

  function MutKindOf(op: HalvingDoubling.Op): NodeKind {
    if op.WaitFlag? then MemOps else IpcP2p
  }

  function MutKinds(ops: seq<HalvingDoubling.Op>): (ks: seq<NodeKind>)
    ensures |ks| == |ops| && forall k :: 0 <= k < |ops| ==> ks[k] == MutKindOf(ops[k])
  {
    seq(|ops|, k requires 0 <= k < |ops| => MutKindOf(ops[k]))
  }

  /** A body, m times. */
  function Repeat(body: seq<NodeKind>, m: nat): seq<NodeKind> {
    if m == 0 then [] else body + Repeat(body, m - 1)
  }

  lemma {:induction false} RepeatEnd(body: seq<NodeKind>, m: nat)
    ensures Repeat(body, m + 1) == Repeat(body, m) + body
    decreases m
  {
    if m > 0 { RepeatEnd(body, m - 1); }
  }

  /** Passes of the loop over strides: from Pow2(i), below Pow2(lg). */
  lemma {:induction false} StridesRepeat(lg: nat, i: nat, body: seq<NodeKind>)
    requires i <= lg
    ensures ForStrides(Pow2(lg), Pow2(i), body) == Repeat(body, lg - i)
    decreases lg - i
  {
    if i < lg {
      Pow2Mono(i, lg);
      StridesRepeat(lg, i + 1, body);
    }
  }

  lemma {:induction false} HalvesRepeat(lg: nat, body: seq<NodeKind>)
    ensures ForHalves(Pow2(lg) / 2, body) == Repeat(body, lg)
    decreases lg
  {
    if lg > 0 { HalvesRepeat(lg - 1, body); }
  }

  // ---- kinds of the recursive-doubling routines ------------------------------------------------

  lemma ExchangeKinds(lg: nat, call: Doubling.Call, c: nat, i: nat)
    ensures Kinds(Doubling.ExchangeOps(lg, call, c, i)) == EXCHANGE
  {
  }

  lemma KindsAppend(a: seq<Doubling.Op>, b: seq<Doubling.Op>)
    ensures Kinds(a + b) == Kinds(a) + Kinds(b)
  {
  }

  /** What a round with its reduction updates. */
  function RoundKinds(kind: Doubling.Kind, lg: nat, i: nat): seq<NodeKind> {
    match kind
    case GatherAll => EXCHANGE + if i + 1 == lg then [Kernel] else []
    case GatherHalf => EXCHANGE + if i + 1 == lg || i + 2 == lg then [Kernel] else []
    case EachRound => EXCHANGE + [Kernel]
  }

  function AllRounds(kind: Doubling.Kind, lg: nat, i: nat): seq<NodeKind> {
    if i == 0 then [] else AllRounds(kind, lg, i - 1) + RoundKinds(kind, lg, i - 1)
  }

  lemma {:induction false} RoundsKinds(lg: nat, call: Doubling.Call, c: nat, i: nat)
    ensures Kinds(Doubling.RoundsOps(lg, call, c, i)) == AllRounds(call.kind, lg, i)
    decreases i
  {
    if i > 0 {
      RoundsKinds(lg, call, c, i - 1);
      var (before, exchange) := (Doubling.RoundsOps(lg, call, c, i - 1), Doubling.ExchangeOps(lg, call, c, i - 1));
      var fold := Doubling.FoldOps(call.kind, lg, c, i - 1);
      KindsAppend(before + exchange, fold);
      KindsAppend(before, exchange);
      ExchangeKinds(lg, call, c, i - 1);
      assert EXCHANGE + Kinds(fold) == RoundKinds(call.kind, lg, i - 1);
    }
  }

  /** Rounds that only exchange. */
  lemma {:induction false} PlainRounds(kind: Doubling.Kind, lg: nat, i: nat)
    requires kind != Doubling.EachRound && i < lg && (kind == Doubling.GatherHalf ==> i + 1 < lg)
    ensures AllRounds(kind, lg, i) == Repeat(EXCHANGE, i)
    decreases i
  {
    if i > 0 {
      PlainRounds(kind, lg, i - 1);
      RepeatEnd(EXCHANGE, i - 1);
    }
  }

  lemma {:induction false} EachRounds(lg: nat, i: nat)
    ensures AllRounds(Doubling.EachRound, lg, i) == Repeat(EXCHANGE + [Kernel], i)
    decreases i
  {
    if i > 0 {
      EachRounds(lg, i - 1);
      RepeatEnd(EXCHANGE + [Kernel], i - 1);
    }
  }

  /** The routine of a schedule. */
  function RoutineOf(kind: Doubling.Kind): Routine {
    match kind case GatherAll => Normal case GatherHalf => CalcLast case EachRound => EachRound
  }

  /** What tcclSmallSizeAllreduce updates with a recursive-doubling routine. */
  function Emitted(lg: nat, call: Doubling.Call, c: nat, many: bool): seq<NodeKind> {
    [MemOps, Kernel] + (if many then Kinds(Doubling.RoundsOps(lg, call, c, lg)) else []) + [MemOps]
  }

  lemma NormalRounds(lg: nat)
    requires lg >= 1
    ensures AllRounds(Doubling.GatherAll, lg, lg) == ForStrides(Pow2(lg), 1, EXCHANGE) + [Kernel]
  {
    PlainRounds(Doubling.GatherAll, lg, lg - 1);
    RepeatEnd(EXCHANGE, lg - 1);
    StridesRepeat(lg, 0, EXCHANGE);
    assert AllRounds(Doubling.GatherAll, lg, lg) == Repeat(EXCHANGE, lg - 1) + (EXCHANGE + [Kernel]);
  }

  lemma CalcLastRounds(lg: nat)
    requires lg >= 2
    ensures AllRounds(Doubling.GatherHalf, lg, lg)
      == ForStrides(Pow2(lg) / 2, 1, EXCHANGE) + [Kernel] + EXCHANGE + [Kernel]
  {
    PlainRounds(Doubling.GatherHalf, lg, lg - 2);
    RepeatEnd(EXCHANGE, lg - 2);
    StridesRepeat(lg - 1, 0, EXCHANGE);
    HalfRounds(lg);
  }

  lemma EachRoundRounds(lg: nat)
    ensures AllRounds(Doubling.EachRound, lg, lg) == ForStrides(Pow2(lg), 1, EXCHANGE + [Kernel])
  {
    EachRounds(lg, lg);
    StridesRepeat(lg, 0, EXCHANGE + [Kernel]);
  }

  /** On a power of two of cards every recursive-doubling routine updates its template. */
  lemma DoublingFits(lg: nat, call: Doubling.Call, c: nat, many: bool)
    requires lg >= 1 && (call.kind == Doubling.GatherHalf ==> lg >= 2)
    ensures Emitted(lg, call, c, many) == Template(RoutineOf(call.kind), many, Pow2(lg))
  {
    RoundsKinds(lg, call, c, lg);
    match call.kind
    case GatherAll => NormalRounds(lg);
    case GatherHalf => CalcLastRounds(lg);
    case EachRound => EachRoundRounds(lg);
  }

  lemma HalfRounds(lg: nat)
    requires lg >= 2 && AllRounds(Doubling.GatherHalf, lg, lg - 2) == Repeat(EXCHANGE, lg - 2)
    requires Repeat(EXCHANGE, lg - 1) == Repeat(EXCHANGE, lg - 2) + EXCHANGE
    ensures AllRounds(Doubling.GatherHalf, lg, lg) == Repeat(EXCHANGE, lg - 1) + [Kernel] + EXCHANGE + [Kernel]
  {
    assert AllRounds(Doubling.GatherHalf, lg, lg - 1) == Repeat(EXCHANGE, lg - 2) + (EXCHANGE + [Kernel]);
    assert AllRounds(Doubling.GatherHalf, lg, lg) == AllRounds(Doubling.GatherHalf, lg, lg - 1) + (EXCHANGE + [Kernel]);
  }

  // ---- kinds of the halving-doubling routine ------------------------------------------------------

  lemma MutAppend(a: seq<HalvingDoubling.Op>, b: seq<HalvingDoubling.Op>)
    ensures MutKinds(a + b) == MutKinds(a) + MutKinds(b)
  {
  }

  lemma {:induction false} HalvingKinds(size: nat, c: nat, half: nat, cnt: nat, i: nat)
    ensures MutKinds(HalvingDoubling.Halving(size, c, half, cnt, i)) == Repeat(MUT_EXCHANGE, i)
    decreases i
  {
    if i > 0 {
      HalvingKinds(size, c, half, cnt, i - 1);
      MutAppend(HalvingDoubling.Halving(size, c, half, cnt, i - 1),
        HalvingDoubling.HalveOps(size, c, half, cnt, i - 1));
      assert MutKinds(HalvingDoubling.HalveOps(size, c, half, cnt, i - 1)) == MUT_EXCHANGE;
      RepeatEnd(MUT_EXCHANGE, i - 1);
    }
  }

  lemma {:induction false} DoublingKinds(size: nat, lg: nat, c: nat, half: nat, cnt: nat, i: nat)
    requires i <= lg
    ensures MutKinds(HalvingDoubling.DoublingOps(size, lg, c, half, cnt, i)) == Repeat(MUT_EXCHANGE, lg - i)
    decreases lg - i
  {
    if i < lg {
      DoublingKinds(size, lg, c, half, cnt, i + 1);
      MutAppend(HalvingDoubling.DoublingOps(size, lg, c, half, cnt, i + 1),
        HalvingDoubling.DoubleOps(size, lg, c, half, cnt, i));
      assert MutKinds(HalvingDoubling.DoubleOps(size, lg, c, half, cnt, i)) == MUT_EXCHANGE;
      RepeatEnd(MUT_EXCHANGE, lg - i - 1);
    }
  }

  function EmittedMut(lg: nat, size: nat, c: nat, half: nat, cnt: nat, many: bool): seq<NodeKind> {
    [MemOps, ResideKernel]
    + (if many then MutKinds(HalvingDoubling.Halving(size, c, half, cnt, lg)
      + HalvingDoubling.DoublingOps(size, lg, c, half, cnt, 0))
       else []) + [MemOps]
  }

  /** So does the halving-doubling routine. */
  lemma MutFits(lg: nat, size: nat, c: nat, half: nat, cnt: nat, many: bool)
    ensures EmittedMut(lg, size, c, half, cnt, many) == Template(Mut, many, Pow2(lg))
  {
    HalvingKinds(size, c, half, cnt, lg);
    DoublingKinds(size, lg, c, half, cnt, 0);
    MutAppend(HalvingDoubling.Halving(size, c, half, cnt, lg), HalvingDoubling.DoublingOps(size, lg, c, half, cnt, 0));
    StridesRepeat(lg, 0, MUT_EXCHANGE);
    HalvesRepeat(lg, MUT_EXCHANGE);
  }

  // ---- the choice of routine -------------------------------------------------------------------------

  /** The routine that tcclSmallSizeAllreduce runs, and the template it updates, are chosen
      by the same tests; `bytesOnly` is the test for 1-byte integer types. */
  function Chosen(cardNum: nat, size: nat, count: nat, bytesOnly: bool): Routine {
    if cardNum == 8 && 32 * 1024 <= size <= 128 * 1024 then CalcLast
    else if HalvingDoubling.Dispatched(cardNum, size, count, bytesOnly) then Mut
    else if size > 128 * 1024 && (cardNum == 4 || cardNum == 8) then EachRound
    else Normal
  }

  function KindFor(routine: Routine): Doubling.Kind
    requires routine != Mut
  {
    match routine
    case Normal => Doubling.GatherAll
    case CalcLast => Doubling.GatherHalf
    case EachRound => Doubling.EachRound
  }

  /** What is emitted for a call on Pow2(lg) cards. */
  function EmittedFor(lg: nat, size: nat, count: nat, bytesOnly: bool, c: nat, half: nat, cnt: nat,
      many: bool): seq<NodeKind> {
    var routine := Chosen(Pow2(lg), size, count, bytesOnly);
    if routine == Mut then EmittedMut(lg, size, c, half, cnt, many)
    else Emitted(lg, Doubling.Call(KindFor(routine), size, half, cnt), c, many)
  }

  /** For every power of two of cards, every size and every type the cursor ends at the last
      node of the chosen template, having met a node of the right kind every time. */
  method SmallAllreduceGraph(lg: nat, size: nat, count: nat, bytesOnly: bool, c: nat, half: nat, cnt: nat,
      many: bool) returns (ok: bool)
    requires many ==> lg >= 1
    ensures ok
  {
    var cardNum := Pow2(lg);
    var nodes := BuildTemplate(Chosen(cardNum, size, count, bytesOnly), many, cardNum);
    var gm := new GraphManager(nodes);
    EmittedFits(lg, size, count, bytesOnly, c, half, cnt, many);
    ok := gm.Modify(EmittedFor(lg, size, count, bytesOnly, c, half, cnt, many));
  }

  lemma EmittedFits(lg: nat, size: nat, count: nat, bytesOnly: bool, c: nat, half: nat, cnt: nat, many: bool)
    requires many ==> lg >= 1
    ensures EmittedFor(lg, size, count, bytesOnly, c, half, cnt, many)
      == Template(Chosen(Pow2(lg), size, count, bytesOnly), many, Pow2(lg))
  {
    var routine := Chosen(Pow2(lg), size, count, bytesOnly);
    if routine == Mut {
      MutFits(lg, size, c, half, cnt, many);
    } else if many {
      if lg == 1 { assert Pow2(lg) == 2; }
      DoublingFits(lg, Doubling.Call(KindFor(routine), size, half, cnt), c, many);
    }
  }

  // ---- other numbers of cards ---------------------------------------------------------------------------

  /** Passes of the routine's two loops on `cards` cards: strides 1, 2, 4, ... below cards,
      then back from the last one. */
  function Doublings(cards: nat, stride: nat): nat
    requires stride > 0
    decreases cards - stride
  {
    if stride >= cards then 0 else 1 + Doublings(cards, 2 * stride)
  }

  /** Passes of the template's second loop: cards / 2, cards / 4, ... down to 1. */
  function Halvings(stride: nat): nat {
    if stride == 0 then 0 else 1 + Halvings(stride / 2)
  }

  lemma {:induction false} DoublingsBound(cards: nat, i: nat, m: nat)
    requires m == Doublings(cards, Pow2(i))
    ensures Pow2(i + m) >= cards && (m > 0 ==> Pow2(i + m - 1) < cards)
    decreases m
  {
    if m > 0 { DoublingsBound(cards, i + 1, m - 1); }
  }

  lemma {:induction false} HalvingsBound(stride: nat, m: nat)
    requires m == Halvings(stride)
    ensures stride < Pow2(m) && (stride > 0 ==> Pow2(m - 1) <= stride)
    decreases stride
  {
    if stride > 0 { HalvingsBound(stride / 2, m - 1); }
  }

  /** The second loops of routine and template agree exactly on powers of two of cards. */
  lemma MutOnlyPowersOfTwo(cards: nat)
    requires cards >= 1
    ensures Doublings(cards, 1) == Halvings(cards / 2) <==> exists lg :: Pow2(lg) == cards
  {
    var (m, h) := (Doublings(cards, 1), Halvings(cards / 2));
    DoublingsBound(cards, 0, m);
    HalvingsBound(cards / 2, h);
    if m == h {
      if m > 0 { assert cards >= Pow2(m); }
      assert Pow2(m) == cards;
    }
    if lg: nat :| Pow2(lg) == cards {
      if m < lg { Pow2Mono(m, lg); }
      if lg < m { if lg < m - 1 { Pow2Mono(lg, m - 1); } }
      if h < lg { Pow2Mono(h, lg); }
      if lg < h { Pow2Mono(lg, h); }
    }
  }
}
