/** The Reduce chain: the program of every card, and the host loop that emits it.

    The ranks with one rank id, one per card, form a chain that ends at the root's card
    and begins at the card after it.  In a step a card reduces its own ranks into its
    send buffer, takes what the previous card pushed, reduces both and pushes the result
    on.  A receiver gives credit once every BUFFERS steps (src/proc.cc, Reduce branch of
    tcclPublicWork). */
module ReduceChain {
  import opened Arith
  import opened Cycle
  import opened Memory
  import opened Terms

  const MAX_SIZE: nat := 64 * 1024 * 1024
  const SLICE: nat := 4 * 1024 * 1024
  const BUFFERS: nat := 16

  /** One Reduce: card of the root, bytes, the ranks of a card that share the work, and
      the value of the step counter that picks the first slot, and the
      passes of the loop, which are the same for all ranks of a card. */
  datatype Call = Call(root: nat, size: nat, rankId: nat, rankNum: nat, stepNo: nat, passes: nat)

  /** Cards, calls, and the counters nextcnt and prevcnt before the first. */
  datatype Chain = Chain(n: nat, calls: seq<Call>, nextcnt: nat, prevcnt: nat)

  predicate ValidCall(n: nat, call: Call) {
    call.root < n && call.rankId < call.rankNum && Times(call.passes, Stride(call)) >= call.size
  }

  ghost predicate Valid(p: Chain) {
    2 <= p.n && forall g :: 0 <= g < |p.calls| ==> ValidCall(p.n, p.calls[g])
  }

  function Stride(call: Call): nat {
    Times(call.rankNum, SLICE)
  }

  /** Offset of the slice of step k in the user's buffer. */
  function Off(call: Call, k: nat): nat {
    Times(k, Stride(call)) + Times(call.rankId, SLICE)
  }

  function Len(call: Call, k: nat): nat {
    var off := Off(call, k);
    if off + SLICE <= call.size then SLICE else if off < call.size then call.size - off else 0
  }

  function PassCount(size: nat, rankNum: nat): nat
    requires rankNum > 0
  {
    (size + SLICE * rankNum - 1) / (SLICE * rankNum)
  }

  function CallOf(root: nat, size: nat, rankId: nat, rankNum: nat, stepNo: nat): Call
    requires rankNum > 0
  {
    Call(root, size, rankId, rankNum, stepNo, PassCount(size, rankNum))
  }

  /** Slices of this rank among the first k. */
  function StepsIn(call: Call, k: nat): nat {
    if k == 0 then 0 else if Off(call, k - 1) < call.size then k else StepsIn(call, k - 1)
  }

  /** The slices this rank has to reduce: in all passes, or in all but the last. */
  function Steps(call: Call): nat {
    StepsIn(call, call.passes)
  }

  lemma {:induction false} OffMono(call: Call, i: nat, k: nat)
    requires i <= k
    ensures Off(call, i) <= Off(call, k)
    decreases k
  {
    if i < k { OffMono(call, i, k - 1); }
  }

  lemma {:induction false} StepsInAre(call: Call, k: nat, i: nat)
    requires i < k
    ensures i < StepsIn(call, k) <==> Off(call, i) < call.size
    decreases k
  {
    if Off(call, k - 1) < call.size { OffMono(call, i, k - 1); }
    else if i < k - 1 { StepsInAre(call, k - 1, i); }
    else { StepsBound(call, k - 1); }
  }

  lemma {:induction false} StepsBound(call: Call, k: nat)
    ensures StepsIn(call, k) <= k
    decreases k
  {
    if k > 0 { StepsBound(call, k - 1); }
  }

  /** A rank handles exactly the slices that begin inside the data. */
  lemma StepsAre(n: nat, call: Call, i: nat)
    requires ValidCall(n, call)
    ensures i < Steps(call) <==> Off(call, i) < call.size
  {
    if i < call.passes {
      StepsInAre(call, call.passes, i);
    } else {
      StepsBound(call, call.passes);
      OffMono(call, call.passes, i);
    }
  }

  /** The passes cover all the data. */
  lemma PassesCover(root: nat, size: nat, rankId: nat, rankNum: nat, stepNo: nat, n: nat)
    requires rankId < rankNum && root < n
    ensures ValidCall(n, CallOf(root, size, rankId, rankNum, stepNo))
  {
    var w := SLICE * rankNum;
    TimesIs(rankNum, SLICE);
    TimesIs(PassCount(size, rankNum), w);
    CeilCovers(size, w);
  }

  lemma OffIs(call: Call, k: nat)
    ensures k * (SLICE * call.rankNum) + SLICE * call.rankId == Off(call, k)
  {
    TimesIs(k, Stride(call));
    TimesIs(call.rankNum, SLICE);
    TimesIs(call.rankId, SLICE);
  }

  lemma CeilCovers(x: nat, w: nat)
    requires w > 0
    ensures (x + w - 1) / w * w >= x
  {
    var q := (x + w - 1) / w;
    assert x + w - 1 == q * w + (x + w - 1) % w;
  }

  // ---- slots ------------------------------------------------------------------------

  function Slot(call: Call, k: nat): nat {
    (call.stepNo + k) % BUFFERS
  }

  function Range(call: Call, k: nat): Region {
    Region(Slot(call, k) * SLICE, Len(call, k))
  }

  lemma SlotsDiffer(a: nat, b: nat)
    requires a < b < a + BUFFERS
    ensures a % BUFFERS != b % BUFFERS
  {
  }

  /** Slots come round after BUFFERS steps, and not before. */
  lemma RangesApart(n: nat, call: Call, i: nat, j: nat)
    requires ValidCall(n, call) && i < j < i + BUFFERS && j < Steps(call)
    ensures Range(call, i) != Range(call, j)
    ensures !Overlap(Range(call, i), Range(call, j)) && !Overlap(Range(call, j), Range(call, i))
  {
    StepsAre(n, call, j);
    SlotsDiffer(call.stepNo + i, call.stepNo + j);
    DifferentSlices(Slot(call, i), Len(call, i), Slot(call, j), Len(call, j));
  }

  lemma DifferentSlices(a: nat, la: nat, b: nat, lb: nat)
    requires a != b && la <= SLICE && lb <= SLICE
    ensures a * SLICE + la <= b * SLICE || b * SLICE + lb <= a * SLICE
  {
  }

  lemma RangeInBuffer(call: Call, k: nat)
    ensures Range(call, k).off + Range(call, k).len <= MAX_SIZE
  {
  }

  /** The step that opened the round of steps to which k belongs. */
  function Round(k: nat): nat {
    k - k % BUFFERS
  }

  predicate NeedsCredit(k: nat) {
    k >= BUFFERS && k % BUFFERS == 0
  }

  /** The test of the source, from whatever value the counter had at the start. */
  lemma CreditTest(start: nat, k: nat)
    ensures (k >= BUFFERS && (start + k + 1) % BUFFERS == (start + 1) % BUFFERS) <==> NeedsCredit(k)
  {
  }

  // ---- the program of one card --------------------------------------------------------

  datatype Stage = SetReady | AwaitReady | Local | Credit | Await | Fold | AwaitCredit | Push | Flag

  datatype Pc = Pc(g: nat, m: nat, st: Stage)

  datatype Src = InBuff | OutBuff

  /** Stream operations; Skip stands for a stage in which a card has nothing to do. */
  datatype Op =
    | Skip
    | WaitToken(value: nat) | SetToken(value: nat) | CardBarrier
    | SendFlag(no: nat, to: nat, value: nat)
    | WaitGeq(no: nat, value: nat)
    | ReduceLocal(user: nat, at: Region)     // the card's ranks into inBuff
    | Combine(at: Region)                    // outBuff[at] := inBuff[at] op outBuff[at]
    | CombineToUser(at: Region, user: nat)
    | PushData(src: Src, at: Region, to: nat)

  /** `cnt` and `credit` are the counters nextcnt and prevcnt when the steps begin. */
  function StageOp(n: nat, c: nat, call: Call, cnt: nat, credit: nat, m: nat, st: Stage): Op
    requires c < n && !(st.SetReady? || st.AwaitReady?)
  {
    var (isRoot, isFirst) := (c == call.root, Prev(n, c) == call.root);
    var at := Range(call, m);
    match st
    case Local => ReduceLocal(Off(call, m), at)
    case Credit => if !isFirst && NeedsCredit(m) then SendFlag(1, Prev(n, c), credit + m + 1) else Skip
    case Await => if !isFirst then WaitGeq(0, cnt + m + 1) else Skip
    case Fold => if isFirst then Skip else if isRoot then CombineToUser(at, Off(call, m)) else Combine(at)
    case AwaitCredit => if !isRoot && NeedsCredit(m) then WaitGeq(1, credit + m + 1) else Skip
    case Push => if isRoot then Skip else PushData(if isFirst then InBuff else OutBuff, at, Next(n, c))
    case Flag => if isRoot then Skip else SendFlag(0, Next(n, c), cnt + m + 1)
  }

  /** The local reduction of ranks that share a device waits for its turn. */
  function LocalOps(call: Call, off: nat, at: Region): seq<Op>
    requires call.rankId < call.rankNum
  {
    if call.passes > 1 then
      [WaitToken(call.rankId), ReduceLocal(off, at), SetToken(Next(call.rankNum, call.rankId))]
    else [ReduceLocal(off, at)]
  }

  function OnlyIf(b: bool, op: Op): seq<Op> {
    if b then [op] else []
  }

  function FirstOps(next: nat, at: Region, data: nat, need: bool, credit: nat): seq<Op> {
    OnlyIf(need, WaitGeq(1, credit)) + [PushData(InBuff, at, next), SendFlag(0, next, data)]
  }

  function MiddleOps(prev: nat, next: nat, at: Region, data: nat, need: bool, credit: nat): seq<Op> {
    OnlyIf(need, SendFlag(1, prev, credit)) + [WaitGeq(0, data), Combine(at)]
    + (OnlyIf(need, WaitGeq(1, credit)) + [PushData(OutBuff, at, next), SendFlag(0, next, data)])
  }

  function RootOps(prev: nat, at: Region, user: nat, data: nat, need: bool, credit: nat): seq<Op> {
    OnlyIf(need, SendFlag(1, prev, credit)) + [WaitGeq(0, data), CombineToUser(at, user)]
  }

  /** A step after the local reduction, by the card's place in the chain. */
  function ChainOps(n: nat, c: nat, root: nat, at: Region, user: nat, data: nat, need: bool, credit: nat): seq<Op>
    requires c < n
  {
    if Prev(n, c) == root then FirstOps(Next(n, c), at, data, need, credit)
    else if c == root then RootOps(Prev(n, c), at, user, data, need, credit)
    else MiddleOps(Prev(n, c), Next(n, c), at, data, need, credit)
  }

  function StepOps(n: nat, c: nat, call: Call, cnt: nat, credit: nat, m: nat): seq<Op>
    requires c < n && call.rankId < call.rankNum
  {
    LocalOps(call, Off(call, m), Range(call, m))
    + ChainOps(n, c, call.root, Range(call, m), Off(call, m), cnt + m + 1, NeedsCredit(m), credit + m + 1)
  }

  function Emit(call: Call, op: Op): seq<Op>
    requires call.rankId < call.rankNum
  {
    if op == Skip then [] else if op.ReduceLocal? then LocalOps(call, op.user, op.at) else [op]
  }

  /** What one stage of a step puts on the stream. */
  function Emitted(n: nat, c: nat, call: Call, cnt: nat, credit: nat, m: nat, st: Stage): seq<Op>
    requires c < n && 2 <= n && call.root < n && call.rankId < call.rankNum && !st.SetReady? && !st.AwaitReady?
  {
    Emit(call, StageOp(n, c, call, cnt, credit, m, st))
  }

  lemma ReceiveStages(n: nat, c: nat, call: Call, cnt: nat, credit: nat, m: nat)
    requires c < n && 2 <= n && call.root < n && call.rankId < call.rankNum
    ensures
      var (at, need) := (Range(call, m), NeedsCredit(m));
      Emitted(n, c, call, cnt, credit, m, Credit) + Emitted(n, c, call, cnt, credit, m, Await)
        + Emitted(n, c, call, cnt, credit, m, Fold) ==
      if Prev(n, c) == call.root then []
      else OnlyIf(need, SendFlag(1, Prev(n, c), credit + m + 1))
           + [WaitGeq(0, cnt + m + 1), if c == call.root then CombineToUser(at, Off(call, m)) else Combine(at)]
  {
  }

  lemma SendStages(n: nat, c: nat, call: Call, cnt: nat, credit: nat, m: nat)
    requires c < n && 2 <= n && call.root < n && call.rankId < call.rankNum
    ensures
      var (at, need) := (Range(call, m), NeedsCredit(m));
      Emitted(n, c, call, cnt, credit, m, AwaitCredit) + Emitted(n, c, call, cnt, credit, m, Push)
        + Emitted(n, c, call, cnt, credit, m, Flag) ==
      if c == call.root then []
      else OnlyIf(need, WaitGeq(1, credit + m + 1))
           + [PushData(if Prev(n, c) == call.root then InBuff else OutBuff, at, Next(n, c)),
             SendFlag(0, Next(n, c), cnt + m + 1)]
  {
  }

  /** The operations of a step are those of its stages, one after the other. */
  lemma StepIsStages(n: nat, c: nat, call: Call, cnt: nat, credit: nat, m: nat)
    requires c < n && 2 <= n && call.root < n && call.rankId < call.rankNum
    ensures
      StepOps(n, c, call, cnt, credit, m) ==
      Emitted(n, c, call, cnt, credit, m, Local)
      + (Emitted(n, c, call, cnt, credit, m, Credit) + Emitted(n, c, call, cnt, credit, m, Await)
        + Emitted(n, c, call, cnt, credit, m, Fold)
         + (Emitted(n, c, call, cnt, credit, m, AwaitCredit) + Emitted(n, c, call, cnt, credit, m, Push)
           + Emitted(n, c, call, cnt, credit, m, Flag)))
  {
    ReceiveStages(n, c, call, cnt, credit, m);
    SendStages(n, c, call, cnt, credit, m);
    assert Emitted(n, c, call, cnt, credit, m, Local) == LocalOps(call, Off(call, m), Range(call, m));
  }

  /** Steps 0..m-1 of a call. */
  function CallOps(n: nat, c: nat, call: Call, cnt: nat, credit: nat, m: nat): seq<Op>
    requires c < n && call.rankId < call.rankNum
  {
    if m == 0 then [] else CallOps(n, c, call, cnt, credit, m - 1) + StepOps(n, c, call, cnt, credit, m - 1)
  }

  lemma CallGrows(n: nat, c: nat, call: Call, cnt: nat, credit: nat, m: nat, was: seq<Op>, now: seq<Op>)
    requires c < n && call.rankId < call.rankNum
    requires now == was + CallOps(n, c, call, cnt, credit, m) + StepOps(n, c, call, cnt, credit, m)
    ensures now == was + CallOps(n, c, call, cnt, credit, m + 1)
  {
  }

  // ---- the host loop --------------------------------------------------------------------

  /** The counters of one rank and the stream it fills. */
  class ReduceComm {
    const n: nat
    const card: nat
    var nextcnt: nat
    var prevcnt: nat
    var stepNo: nat
    var stream: seq<Op>

    constructor (n: nat, card: nat)
      requires card < n
      ensures this.n == n && this.card == card
      ensures nextcnt == prevcnt == stepNo == 0 && stream == []
    {
      this.n, this.card := n, card;
      nextcnt, prevcnt, stepNo, stream := 0, 0, 0, [];
    }

    method SendPostNoWait(at: Region, src: Src, peer: nat)
      modifies this`nextcnt, this`stream
      ensures nextcnt == old(nextcnt) + 1
      ensures stream == old(stream) + [PushData(src, at, peer), SendFlag(0, peer, nextcnt)]
    {
      nextcnt := nextcnt + 1;
      stream := stream + [PushData(src, at, peer)] + [SendFlag(0, peer, nextcnt)];
    }

    /** The local reduction, in the rank's turn. */
    method LocalReduce(at: Region, off: nat, ifSplit: bool, rankId: nat, rankNum: nat)
      requires rankId < rankNum
      modifies this`stream
      ensures stream == old(stream) +
        if ifSplit then [WaitToken(rankId), ReduceLocal(off, at), SetToken(Next(rankNum, rankId))]
        else [ReduceLocal(off, at)]
    {
      if ifSplit { stream := stream + [WaitToken(rankId)]; }
      stream := stream + [ReduceLocal(off, at)];
      SmallMod(rankNum, rankId + 1);
      if ifSplit { stream := stream + [SetToken((rankId + 1) % rankNum)]; }
    }

    method FirstStep(at: Region, credit: bool)
      requires card < n
      modifies this`nextcnt, this`stream
      ensures nextcnt == old(nextcnt) + 1
      ensures stream == old(stream) + FirstOps(Next(n, card), at, nextcnt, credit, prevcnt)
    {
      if credit { stream := stream + [WaitGeq(1, prevcnt)]; }
      SendPostNoWait(at, InBuff, Next(n, card));
    }

    method RootStep(at: Region, off: nat, credit: bool)
      requires card < n
      modifies this`nextcnt, this`stream
      ensures nextcnt == old(nextcnt) + 1
      ensures stream == old(stream) + RootOps(Prev(n, card), at, off, nextcnt, credit, prevcnt)
    {
      if credit { stream := stream + [SendFlag(1, Prev(n, card), prevcnt)]; }
      nextcnt := nextcnt + 1;
      stream := stream + [WaitGeq(0, nextcnt)];
      stream := stream + [CombineToUser(at, off)];
    }

    method MiddleStep(at: Region, credit: bool)
      requires card < n
      modifies this`nextcnt, this`stream
      ensures nextcnt == old(nextcnt) + 1
      ensures stream == old(stream) + MiddleOps(Prev(n, card), Next(n, card), at, nextcnt, credit, prevcnt)
    {
      if credit { stream := stream + [SendFlag(1, Prev(n, card), prevcnt)]; }
      nextcnt := nextcnt + 1;
      stream := stream + [WaitGeq(0, nextcnt)];
      nextcnt := nextcnt - 1;
      stream := stream + [Combine(at)];
      if credit { stream := stream + [WaitGeq(1, prevcnt)]; }
      SendPostNoWait(at, OutBuff, Next(n, card));
    }

    /** What a card does in a step after the local reduction. */
    method ReduceStep(k: nat, at: Region, off: nat, startSync: nat, rootCard: nat, ghost cnt: nat, ghost credit: nat)
      requires card < n && 2 <= n && rootCard < n
      requires nextcnt == cnt + k && prevcnt == credit + k && startSync == (credit + 1) % BUFFERS
      modifies this`nextcnt, this`prevcnt, this`stream
      ensures nextcnt == cnt + k + 1 && prevcnt == credit + k + 1
      ensures stream == old(stream) + ChainOps(n, card, rootCard, at, off, nextcnt, NeedsCredit(k), prevcnt)
    {
      prevcnt := prevcnt + 1;
      CreditTest(credit, k);
      var needPrevSync := k >= BUFFERS && prevcnt % BUFFERS == startSync;
      if Prev(n, card) == rootCard {
        FirstStep(at, needPrevSync);
      } else if card == rootCard {
        RootStep(at, off, needPrevSync);
      } else {
        MiddleStep(at, needPrevSync);
      }
    }

    /** A whole Reduce: every card emits the steps of its place in the chain, and the
        counters move alike on all cards. */
    method Reduce(rootCard: nat, dataSize: nat, rankId: nat, rankNum: nat)
      requires card < n && 2 <= n && rootCard < n && rankId < rankNum
      modifies this
      ensures
        var call := CallOf(rootCard, dataSize, rankId, rankNum, old(stepNo));
        && nextcnt == old(nextcnt) + Steps(call) && prevcnt == old(prevcnt) + Steps(call)
        && stepNo == old(stepNo) + call.passes
        && stream == old(stream) + (if call.passes > 1 && rankId == 0 then [SetToken(0)] else [])
                     + CallOps(n, card, call, old(nextcnt), old(prevcnt), Steps(call))
                     + [CardBarrier] + (if call.passes > 1 && rankId == 0 then [SetToken(0)] else [])
    {
      ghost var call := CallOf(rootCard, dataSize, rankId, rankNum, stepNo);
      var steps := PassCount(dataSize, rankNum);
      var startPrevSync := (prevcnt + 1) % BUFFERS;
      var ifSplit := true;
      if steps <= 1 { ifSplit := false; }
      if ifSplit && rankId == 0 { stream := stream + [SetToken(0)]; }
      ReduceLoop(rootCard, dataSize, rankId, rankNum, steps, startPrevSync, ifSplit, call);
      stream := stream + [CardBarrier];
      if ifSplit && rankId == 0 { stream := stream + [SetToken(0)]; }
    }

    method ReduceLoop(rootCard: nat, dataSize: nat, rankId: nat, rankNum: nat, steps: nat, startSync: nat,
        ifSplit: bool, ghost call: Call)
      requires card < n && 2 <= n && rootCard < n && rankId < rankNum
      requires call == Call(rootCard, dataSize, rankId, rankNum, stepNo, steps)
      requires startSync == (prevcnt + 1) % BUFFERS && ifSplit == (steps > 1)
      modifies this
      ensures nextcnt == old(nextcnt) + Steps(call) && prevcnt == old(prevcnt) + Steps(call)
      ensures stepNo == old(stepNo) + steps
      ensures stream == old(stream) + CallOps(n, card, call, old(nextcnt), old(prevcnt), Steps(call))
    {
      var step := 0;
      while step < steps
        invariant step <= steps && stepNo == old(stepNo) + step
        invariant nextcnt == old(nextcnt) + StepsIn(call, step) && prevcnt == old(prevcnt) + StepsIn(call, step)
        invariant stream == old(stream) + CallOps(n, card, call, old(nextcnt), old(prevcnt), StepsIn(call, step))
      {
        OnePass(step, rootCard, dataSize, rankId, rankNum, startSync, ifSplit, call, old(nextcnt), old(prevcnt),
          old(stream));
        step := step + 1;
      }
    }

    /** One pass of the loop; the last may have no slice for this rank. */
    method OnePass(step: nat, rootCard: nat, dataSize: nat, rankId: nat, rankNum: nat, startSync: nat, ifSplit: bool,
                   ghost call: Call, ghost cnt: nat, ghost credit: nat, ghost was: seq<Op>)
      requires card < n && 2 <= n && rootCard < n && rankId < rankNum && stepNo == call.stepNo + step
      requires call == Call(rootCard, dataSize, rankId, rankNum, call.stepNo, call.passes)
        && ifSplit == (call.passes > 1)
      requires startSync == (credit + 1) % BUFFERS
      requires nextcnt == cnt + StepsIn(call, step) && prevcnt == credit + StepsIn(call, step)
      requires stream == was + CallOps(n, card, call, cnt, credit, StepsIn(call, step))
      modifies this
      ensures stepNo == old(stepNo) + 1
      ensures nextcnt == cnt + StepsIn(call, step + 1) && prevcnt == credit + StepsIn(call, step + 1)
      ensures stream == was + CallOps(n, card, call, cnt, credit, StepsIn(call, step + 1))
    {
      var crossBase := (stepNo % BUFFERS) * SLICE;
      stepNo := stepNo + 1;
      OffIs(call, step);
      var sliceOff := step * (SLICE * rankNum) + SLICE * rankId;
      if sliceOff < dataSize {
        AllSoFar(call, step);
        OneSlice(step, crossBase, sliceOff, rootCard, dataSize, rankId, rankNum, startSync, ifSplit, call, cnt, credit);
        CallGrows(n, card, call, cnt, credit, step, was, stream);
      }
    }

    method OneSlice(step: nat, crossBase: nat, sliceOff: nat, rootCard: nat, dataSize: nat, rankId: nat, rankNum: nat,
                    startSync: nat, ifSplit: bool, ghost call: Call, ghost cnt: nat, ghost credit: nat)
      requires card < n && 2 <= n && rootCard < n && rankId < rankNum
      requires call == Call(rootCard, dataSize, rankId, rankNum, call.stepNo, call.passes)
        && ifSplit == (call.passes > 1)
      requires crossBase == Range(call, step).off && sliceOff == Off(call, step) < dataSize
      requires nextcnt == cnt + step && prevcnt == credit + step && startSync == (credit + 1) % BUFFERS
      modifies this`nextcnt, this`prevcnt, this`stream
      ensures nextcnt == cnt + step + 1 && prevcnt == credit + step + 1
      ensures stream == old(stream) + StepOps(n, card, call, cnt, credit, step)
    {
      var realSize := if sliceOff + SLICE <= dataSize then SLICE else dataSize - sliceOff;
      var at := Region(crossBase, realSize);
      LocalReduce(at, sliceOff, ifSplit, rankId, rankNum);
      ReduceStep(step, at, sliceOff, startSync, rootCard, cnt, credit);
    }
  }

  /** Until a pass without a slice, all passes had one. */
  lemma {:induction false} AllSoFar(call: Call, k: nat)
    requires Off(call, k) < call.size
    ensures StepsIn(call, k) == k
    decreases k
  {
    if k > 0 { OffMono(call, k - 1, k); }
  }
}
