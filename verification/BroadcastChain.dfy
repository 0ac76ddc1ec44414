/** The pipelined Broadcast: the program of every card, and the host loop that emits it.

    The ranks with one rank id, one per card, form a chain along the ring that starts
    at the root's card.  A step loads (root) or awaits one chunk, passes it on, copies
    it to the card's users, and acknowledges it (src/proc.cc, Broadcast branch of
    tcclPublicWork).  A slot of the receiver's cross buffer is used again after a
    whole round of slots, and only when its last use has been acknowledged. */
module BroadcastChain {
  import opened Arith
  import opened Cycle
  import opened Memory

  const MAX_SIZE: nat := 64 * 1024 * 1024
  const MIB: nat := 1024 * 1024

  /** Flag words reserved for acknowledgements. */
  const ACK_FLAGS: nat := 100

  /** One Broadcast: card of the root, bytes to send, bytes of a chunk, the ranks of a
      card that share the work, and whether cross buffer slots are used again. */
  datatype Call = Call(root: nat, size: nat, chunk: nat, rankId: nat, rankNum: nat, acks: bool)

  /** Cards, calls, and the counters nextcnt, prevcnt and myBcastCnt before the first. */
  datatype Chain = Chain(n: nat, calls: seq<Call>, nextcnt: nat, prevcnt: nat, bcastcnt: nat)

  function Slots(call: Call): nat
    requires call.chunk > 0
  {
    MAX_SIZE / call.chunk
  }

  function Stride(call: Call): nat {
    Times(call.rankNum, call.chunk)
  }

  /** Offset of the chunk of step m in the user's buffer. */
  function Off(call: Call, m: nat): nat {
    Times(call.rankId, call.chunk) + Times(m, Stride(call))
  }

  function StepsFrom(call: Call, off: nat): nat
    requires Stride(call) > 0
    decreases call.size - off
  {
    if off >= call.size then 0 else 1 + StepsFrom(call, off + Stride(call))
  }

  /** How many chunks this rank has to pass on. */
  function Steps(call: Call): nat
    requires Stride(call) > 0
  {
    StepsFrom(call, Off(call, 0))
  }

  function Len(call: Call, m: nat): nat {
    var off := Off(call, m);
    if off + call.chunk > call.size then (if off < call.size then call.size - off else 0) else call.chunk
  }

  lemma {:induction false} StepsFromIs(call: Call, m: nat, k: nat)
    requires Stride(call) > 0
    ensures k < StepsFrom(call, Off(call, m)) <==> Off(call, m + k) < call.size
    decreases k
  {
    if k > 0 {
      StepsFromIs(call, m + 1, k - 1);
      if Off(call, m) >= call.size { OffMono(call, m, m + k); }
    }
  }

  lemma {:induction false} OffMono(call: Call, m: nat, k: nat)
    requires m <= k
    ensures Off(call, m) <= Off(call, k)
    decreases k
  {
    if m < k { OffMono(call, m, k - 1); }
  }

  /** The loop runs for exactly the chunks that begin inside the data. */
  lemma StepsAre(call: Call, m: nat)
    requires Stride(call) > 0
    ensures m < Steps(call) <==> Off(call, m) < call.size
  {
    StepsFromIs(call, 0, m);
  }

  predicate ValidCall(n: nat, call: Call) {
    && call.root < n && call.rankId < call.rankNum
    && 0 < call.chunk <= MAX_SIZE && Stride(call) > 0
    && (if call.acks then Slots(call) <= ACK_FLAGS else Steps(call) <= Slots(call))
  }

  ghost predicate Valid(p: Chain) {
    2 <= p.n && forall g :: 0 <= g < |p.calls| ==> ValidCall(p.n, p.calls[g])
  }

  // ---- the size of a chunk, and when acknowledgements are needed ------------------

  /** tcclGetBroadcastChunkSize. */
  function ChunkSize(size: nat, rankNum: nat): (chunk: nat)
    requires rankNum > 0
    ensures 0 < chunk <= 4 * MIB
    ensures chunk < 4 * MIB ==> size < Times(rankNum, chunk) + rankNum
  {
    var share := size / rankNum;
    var chunk :=
      if share <= 128 * 1024 then 128 * 1024
      else if share <= 256 * 1024 then 256 * 1024
      else if share <= 512 * 1024 then 512 * 1024
      else if share <= 640 * 1024 then 640 * 1024
      else if share <= 768 * 1024 then 768 * 1024
      else if share <= 1024 * 1024 then 1024 * 1024
      else if share <= 1536 * 1024 then 1536 * 1024
      else if share <= 2 * MIB then 2 * MIB
      else 4 * MIB;
    ShareCovers(size, rankNum, chunk);
    chunk
  }

  lemma ShareCovers(size: nat, rankNum: nat, chunk: nat)
    requires rankNum > 0
    ensures size / rankNum <= chunk ==> size < Times(rankNum, chunk) + rankNum
  {
    TimesIs(rankNum, chunk);
    var q := size / rankNum;
    assert size == q * rankNum + size % rankNum;
    if q < chunk { MulStep(q, chunk, rankNum); }
    assert chunk * rankNum == rankNum * chunk;
  }

  function CallOf(root: nat, size: nat, rankId: nat, rankNum: nat): Call
    requires rankNum > 0
  {
    var acks := size > Times(rankNum, MAX_SIZE);
    Call(root, size, if acks then 4 * MIB else ChunkSize(size, rankNum), rankId, rankNum, acks)
  }

  /** Without acknowledgements no slot is ever used twice in a call, whatever the size. */
  lemma NoReuseWithoutAcks(root: nat, size: nat, rankId: nat, rankNum: nat, n: nat)
    requires rankId < rankNum && root < n
    ensures ValidCall(n, CallOf(root, size, rankId, rankNum))
  {
    var call := CallOf(root, size, rankId, rankNum);
    var slots := Slots(call);
    TimesStep(0, rankNum, call.chunk);
    if call.acks {
      assert slots == 16;
    } else {
      FewSteps(call);
      if call.chunk == 4 * MIB {
        assert slots == 16;
      } else {
        assert slots * call.chunk + MAX_SIZE % call.chunk == MAX_SIZE;
        TwoFit(slots, call.chunk);
      }
    }
  }

  lemma TwoFit(slots: nat, chunk: nat)
    requires 0 < chunk <= 4 * MIB && slots == MAX_SIZE / chunk
    ensures slots >= 2
  {
    var rest := MAX_SIZE % chunk;
    assert slots * chunk + rest == MAX_SIZE;
    if slots == 0 || slots == 1 { assert false; }
  }

  lemma FewSteps(call: Call)
    requires call.rankNum > 0 && Stride(call) > 0 && 0 < call.chunk <= 4 * MIB
    requires call.size <= Times(call.rankNum, MAX_SIZE)
    requires call.chunk < 4 * MIB ==> call.size < Stride(call) + call.rankNum
    ensures Steps(call) <= if call.chunk < 4 * MIB then 2 else 16
  {
    if call.chunk < 4 * MIB {
      StepsAre(call, 2);
      assert Times(2, Stride(call)) == Stride(call) + Stride(call) by { assert Times(1, Stride(call)) == Stride(call); }
      StrideCoversRanks(call.rankNum, call.chunk);
    } else {
      StepsAre(call, 16);
      TimesIs(16, Stride(call));
      TimesIs(call.rankNum, call.chunk);
      TimesIs(call.rankNum, MAX_SIZE);
    }
  }

  lemma {:induction false} StrideCoversRanks(rankNum: nat, chunk: nat)
    requires chunk > 0
    ensures rankNum <= Times(rankNum, chunk)
    decreases rankNum
  {
    if rankNum > 0 { StrideCoversRanks(rankNum - 1, chunk); }
  }

  // ---- slots ------------------------------------------------------------------------

  /** The bytes of the cross buffers that step m uses. */
  function Range(call: Call, m: nat): Region
    requires call.chunk > 0 && Slots(call) > 0
  {
    Region(Times(m % Slots(call), call.chunk), Len(call, m))
  }

  lemma SlotsPositive(n: nat, call: Call)
    requires ValidCall(n, call)
    ensures Slots(call) > 0
  {
    var q := Slots(call);
    assert q * call.chunk + MAX_SIZE % call.chunk == MAX_SIZE;
    if q == 0 { assert false; }
  }

  /** Steps less than a round apart use different slots. */
  lemma SlotsDiffer(w: nat, i: nat, j: nat)
    requires i < j < i + w
    ensures i % w != j % w
  {
    var (qi, qj) := (i / w, j / w);
    assert i == qi * w + i % w && j == qj * w + j % w;
    if i % w == j % w {
      if qi < qj { MulStep(qi, qj, w); } else if qj < qi { MulStep(qj, qi, w); }
      assert false;
    }
  }

  lemma RangesApart(n: nat, call: Call, i: nat, j: nat)
    requires ValidCall(n, call) && Slots(call) > 0
    requires i < j < i + Slots(call) && j < Steps(call)
    ensures Range(call, i) != Range(call, j)
    ensures !Overlap(Range(call, i), Range(call, j)) && !Overlap(Range(call, j), Range(call, i))
  {
    var w := Slots(call);
    SlotsDiffer(w, i, j);
    StepsAre(call, j);
    if i % w < j % w { TimesStep(i % w, j % w, call.chunk); } else { TimesStep(j % w, i % w, call.chunk); }
  }

  /** Every slot lies inside the cross buffer. */
  lemma RangeInBuffer(n: nat, call: Call, m: nat)
    requires ValidCall(n, call) && Slots(call) > 0
    ensures Range(call, m).off + Range(call, m).len <= MAX_SIZE
  {
    var w := Slots(call);
    TimesStep(m % w, w, call.chunk);
    WholeSlots(call);
  }

  lemma WholeSlots(call: Call)
    requires call.chunk > 0
    ensures Times(Slots(call), call.chunk) <= MAX_SIZE
  {
    TimesIs(Slots(call), call.chunk);
  }

  // ---- the program of one card --------------------------------------------------------

  datatype Stage = SetReady | AwaitReady | Take | AwaitAck | Push | Flag | Copy | Ack

  /** Call g, its step m. */
  datatype Pc = Pc(g: nat, m: nat, st: Stage)

  datatype Src = InBuff | OutBuff

  /** Stream operations; Skip stands for a stage in which a card has nothing to do. */
  datatype Op =
    | Skip
    | SendFlag(no: nat, to: nat, value: nat)
    | WaitGeq(no: nat, value: nat)
    | WaitEq(no: nat, value: nat)
    | LoadIn(user: nat, at: Region)
    | PushData(src: Src, at: Region, to: nat)
    | ToUsers(src: Src, at: Region, user: nat)

  const BCAST_FLAG_START_NO: nat := 100

  function StageOp(n: nat, c: nat, call: Call, cnt: nat, bcast: nat, m: nat, st: Stage): Op
    requires c < n && call.chunk > 0 && Slots(call) > 0 && !(st.SetReady? || st.AwaitReady?)
  {
    var (isRoot, isLast) := (c == call.root, Next(n, c) == call.root);
    var (at, src, slot) := (Range(call, m), if isRoot then InBuff else OutBuff, m % Slots(call));
    match st
    case Take => if isRoot then LoadIn(Off(call, m), at) else WaitGeq(0, cnt + m + 1)
    case AwaitAck =>
      if !isLast && call.acks && m >= Slots(call) then
        WaitEq(BCAST_FLAG_START_NO + slot, bcast + m - Slots(call) + 1)
      else Skip
    case Push => if isLast then Skip else PushData(src, at, Next(n, c))
    case Flag => if isLast then Skip else SendFlag(0, Next(n, c), cnt + m + 1)
    case Copy => ToUsers(src, at, Off(call, m))
    case Ack =>
      if isRoot || !call.acks then Skip
      else SendFlag(BCAST_FLAG_START_NO + slot, Prev(n, c), bcast + m + 1)
  }

  function Emit(op: Op): seq<Op> {
    if op == Skip then [] else [op]
  }

  function StepOps(n: nat, c: nat, call: Call, cnt: nat, bcast: nat, m: nat): seq<Op>
    requires c < n && call.chunk > 0 && Slots(call) > 0
  {
    Emit(StageOp(n, c, call, cnt, bcast, m, Take)) + Emit(StageOp(n, c, call, cnt, bcast, m, AwaitAck))
    + Emit(StageOp(n, c, call, cnt, bcast, m, Push)) + Emit(StageOp(n, c, call, cnt, bcast, m, Flag))
    + Emit(StageOp(n, c, call, cnt, bcast, m, Copy)) + Emit(StageOp(n, c, call, cnt, bcast, m, Ack))
  }

  /** Steps 0..m-1 of a call. */
  function CallOps(n: nat, c: nat, call: Call, cnt: nat, bcast: nat, m: nat): seq<Op>
    requires c < n && call.chunk > 0 && Slots(call) > 0
  {
    if m == 0 then [] else CallOps(n, c, call, cnt, bcast, m - 1) + StepOps(n, c, call, cnt, bcast, m - 1)
  }

  // ---- the host loop --------------------------------------------------------------------

  /** The counters of one rank and the stream it fills. */
  class BcastComm {
    const n: nat
    const card: nat
    var nextcnt: nat
    var prevcnt: nat
    var myBcastCnt: nat
    var peerBcastCnt: nat
    var reuseCross: bool
    var stream: seq<Op>

    constructor (n: nat, card: nat)
      requires card < n
      ensures this.n == n && this.card == card
      ensures nextcnt == prevcnt == myBcastCnt == peerBcastCnt == 0 && !reuseCross && stream == []
    {
      this.n, this.card := n, card;
      nextcnt, prevcnt, myBcastCnt, peerBcastCnt, reuseCross, stream := 0, 0, 0, 0, false, [];
    }

    method SendPostNoWait(at: Region, src: Src, peer: nat)
      modifies this`nextcnt, this`stream
      ensures nextcnt == old(nextcnt) + 1
      ensures stream == old(stream) + [PushData(src, at, peer), SendFlag(0, peer, nextcnt)]
    {
      nextcnt := nextcnt + 1;
      stream := stream + [PushData(src, at, peer)] + [SendFlag(0, peer, nextcnt)];
    }

    method BcastSendAckFlag(no: nat, value: nat)
      requires card < n
      modifies this`stream
      ensures stream == old(stream) + if reuseCross then [SendFlag(BCAST_FLAG_START_NO + no, Prev(n, card), value)]
        else []
    {
      if reuseCross { stream := stream + [SendFlag(no + BCAST_FLAG_START_NO, Prev(n, card), value)]; }
    }

    method BcastWaitAckFlag(no: nat, stepNo: nat, nChunks: nat)
      modifies this`stream, this`myBcastCnt
      ensures myBcastCnt == old(myBcastCnt) + if reuseCross && stepNo > nChunks then 1 else 0
      ensures stream == old(stream) + if reuseCross && stepNo > nChunks
        then [WaitEq(BCAST_FLAG_START_NO + no, myBcastCnt)] else []
    {
      if reuseCross && stepNo > nChunks {
        myBcastCnt := myBcastCnt + 1;
        stream := stream + [WaitEq(no + BCAST_FLAG_START_NO, myBcastCnt)];
      }
    }

    method RootStep(m: nat, off: nat, at: Region, nChunks: nat, ghost call: Call, ghost cnt: nat, ghost bcast: nat)
      requires card < n && 2 <= n && Fits(call, call.chunk, nChunks, card)
      requires off == Off(call, m) && at == Range(call, m)
      requires nextcnt == cnt + m && myBcastCnt == bcast + Waits(call, m)
      modifies this`nextcnt, this`stream, this`myBcastCnt
      ensures nextcnt == cnt + m + 1 && myBcastCnt == bcast + Waits(call, m + 1)
      ensures stream == old(stream) + StepOps(n, card, call, cnt, bcast, m)
    {
      var (crossNo, stepNo) := (m % nChunks, m + 1);
      stream := stream + [LoadIn(off, at)];
      BcastWaitAckFlag(crossNo, stepNo, nChunks);
      SendPostNoWait(at, InBuff, Next(n, card));
      stream := stream + [ToUsers(InBuff, at, off)];
    }

    method LastStep(m: nat, off: nat, at: Region, nChunks: nat, ghost call: Call, ghost cnt: nat, ghost bcast: nat)
      requires card < n && 2 <= n && Fits(call, call.chunk, nChunks, Next(n, card))
      requires off == Off(call, m) && at == Range(call, m)
      requires nextcnt == cnt + m && peerBcastCnt == bcast + m + 1
      modifies this`nextcnt, this`stream
      ensures nextcnt == cnt + m + 1
      ensures stream == old(stream) + StepOps(n, card, call, cnt, bcast, m)
    {
      nextcnt := nextcnt + 1;
      stream := stream + [WaitGeq(0, nextcnt)];
      stream := stream + [ToUsers(OutBuff, at, off)];
      BcastSendAckFlag(m % nChunks, peerBcastCnt);
    }

    method MiddleStep(m: nat, off: nat, at: Region, nChunks: nat, ghost call: Call, ghost cnt: nat, ghost bcast: nat)
      requires card < n && 2 <= n && Fits(call, call.chunk, nChunks, call.root)
      requires card != call.root && Next(n, card) != call.root
      requires off == Off(call, m) && at == Range(call, m)
      requires nextcnt == cnt + m && myBcastCnt == bcast + Waits(call, m) && peerBcastCnt == bcast + m + 1
      modifies this`nextcnt, this`stream, this`myBcastCnt
      ensures nextcnt == cnt + m + 1 && myBcastCnt == bcast + Waits(call, m + 1)
      ensures stream == old(stream) + StepOps(n, card, call, cnt, bcast, m)
    {
      var (crossNo, stepNo) := (m % nChunks, m + 1);
      nextcnt := nextcnt + 1;
      stream := stream + [WaitGeq(0, nextcnt)];
      nextcnt := nextcnt - 1;
      BcastWaitAckFlag(crossNo, stepNo, nChunks);
      SendPostNoWait(at, OutBuff, Next(n, card));
      stream := stream + [ToUsers(OutBuff, at, off)];
      BcastSendAckFlag(crossNo, peerBcastCnt);
    }

    /** The body of the loop: step m of a call. */
    method BroadcastStep(m: nat, off: nat, realChunkSize: nat, chunkSize: nat, nChunks: nat, rootCard: nat,
                         ghost call: Call, ghost cnt: nat, ghost bcast: nat)
      requires card < n && 2 <= n && rootCard < n && Fits(call, chunkSize, nChunks, rootCard)
      requires off == Off(call, m) && realChunkSize == Len(call, m)
      requires nextcnt == cnt + m && peerBcastCnt == bcast + m
      requires Next(n, card) != rootCard ==> myBcastCnt == bcast + Waits(call, m)
      modifies this`nextcnt, this`stream, this`myBcastCnt, this`peerBcastCnt
      ensures nextcnt == cnt + m + 1 && peerBcastCnt == bcast + m + 1
      ensures Next(n, card) != rootCard ==> myBcastCnt == bcast + Waits(call, m + 1)
      ensures stream == old(stream) + StepOps(n, card, call, cnt, bcast, m)
    {
      var crossNo := m % nChunks;
      TimesIs(crossNo, chunkSize);
      var at := Region(crossNo * chunkSize, realChunkSize);
      peerBcastCnt := peerBcastCnt + 1;
      if card == rootCard {
        RootStep(m, off, at, nChunks, call, cnt, bcast);
      } else if Next(n, card) == rootCard {
        LastStep(m, off, at, nChunks, call, cnt, bcast);
      } else {
        MiddleStep(m, off, at, nChunks, call, cnt, bcast);
      }
    }

    ghost predicate Fits(call: Call, chunkSize: nat, nChunks: nat, rootCard: nat)
      reads this`reuseCross
    {
      && call.chunk == chunkSize > 0 && nChunks == Slots(call) > 0
      && call.acks == reuseCross && call.root == rootCard
    }

    /** The loop over the chunks of this rank. */
    method BroadcastLoop(rootCard: nat, dataSize: nat, rankId: nat, rankNum: nat, chunkSize: nat, nChunks: nat,
        ghost call: Call)
      requires card < n && 2 <= n && rootCard < n && Fits(call, chunkSize, nChunks, rootCard)
      requires call.size == dataSize && call.rankId == rankId < rankNum == call.rankNum && Stride(call) > 0
      requires myBcastCnt == peerBcastCnt
      modifies this`nextcnt, this`stream, this`myBcastCnt, this`peerBcastCnt
      ensures nextcnt == old(nextcnt) + Steps(call) && peerBcastCnt == old(peerBcastCnt) + Steps(call)
      ensures stream == old(stream) + CallOps(n, card, call, old(nextcnt), old(peerBcastCnt), Steps(call))
    {
      var realChunkSize, stepNo := chunkSize, 0;
      TimesIs(rankId, chunkSize);
      var off := rankId * chunkSize;
      StepsAre(call, 0);
      ghost var before, cnt, bcast := stream, nextcnt, peerBcastCnt;
      while off < dataSize
        invariant Fits(call, chunkSize, nChunks, rootCard)
        invariant stepNo <= Steps(call) && off == Off(call, stepNo)
        invariant off < dataSize ==> realChunkSize == chunkSize
        invariant AtStep(call, cnt, bcast, stepNo)
        invariant stream == before + CallOps(n, card, call, cnt, bcast, stepNo)
        decreases dataSize - off
      {
        if off + chunkSize > dataSize { realChunkSize := dataSize - off; }
        StepsAre(call, stepNo);
        OffStep(call, stepNo);
        BroadcastPass(stepNo, off, realChunkSize, chunkSize, nChunks, rootCard, call, before, cnt, bcast);
        off, stepNo := off + chunkSize * rankNum, stepNo + 1;
      }
      StepsAre(call, stepNo);
    }

    /** The counters before step m. */
    ghost predicate AtStep(call: Call, cnt: nat, bcast: nat, m: nat)
      requires card < n && call.chunk > 0
      reads this`nextcnt, this`myBcastCnt, this`peerBcastCnt
    {
      && nextcnt == cnt + m && peerBcastCnt == bcast + m
      && (Next(n, card) != call.root ==> myBcastCnt == bcast + Waits(call, m))
    }

    method BroadcastPass(m: nat, off: nat, realChunkSize: nat, chunkSize: nat, nChunks: nat, rootCard: nat,
                         ghost call: Call, ghost before: seq<Op>, ghost cnt: nat, ghost bcast: nat)
      requires card < n && 2 <= n && rootCard < n && Fits(call, chunkSize, nChunks, rootCard) && Stride(call) > 0
        && call.rankNum > 0
      requires off == Off(call, m) < call.size && realChunkSize == Len(call, m) && AtStep(call, cnt, bcast, m)
      requires stream == before + CallOps(n, card, call, cnt, bcast, m)
      modifies this`nextcnt, this`stream, this`myBcastCnt, this`peerBcastCnt
      ensures AtStep(call, cnt, bcast, m + 1)
      ensures stream == before + CallOps(n, card, call, cnt, bcast, m + 1)
    {
      ghost var now := StepOps(n, card, call, cnt, bcast, m);
      CallGrows(n, card, call, cnt, bcast, m, before, now);
      BroadcastStep(m, off, realChunkSize, chunkSize, nChunks, rootCard, call, cnt, bcast);
    }

    /** A whole Broadcast.  Every card emits the steps of its place in the chain, and all
        counters agree again at the end. */
    method Broadcast(rootCard: nat, dataSize: nat, rankId: nat, rankNum: nat)
      requires card < n && 2 <= n && rootCard < n && rankId < rankNum
      requires myBcastCnt == peerBcastCnt
      modifies this
      ensures
        var call := CallOf(rootCard, dataSize, rankId, rankNum);
        && Stride(call) > 0 && Slots(call) > 0
        && nextcnt == old(nextcnt) + Steps(call) && prevcnt == old(prevcnt)
        && myBcastCnt == peerBcastCnt == old(peerBcastCnt) + Steps(call)
        && stream == old(stream) + CallOps(n, card, call, old(nextcnt), old(peerBcastCnt), Steps(call))
    {
      var chunkSize := ChunkSize(dataSize, rankNum);
      TimesIs(rankNum, MAX_SIZE);
      if dataSize > rankNum * MAX_SIZE {
        reuseCross := true;
        chunkSize := 4 * MIB;
      } else {
        reuseCross := false;
      }
      ghost var call := CallOf(rootCard, dataSize, rankId, rankNum);
      NoReuseWithoutAcks(rootCard, dataSize, rankId, rankNum, n);
      SlotsPositive(n, call);
      BroadcastLoop(rootCard, dataSize, rankId, rankNum, chunkSize, MAX_SIZE / chunkSize, call);
      myBcastCnt := peerBcastCnt;
    }
  }

  lemma StrideAtLeast(rankNum: nat, chunk: nat)
    requires rankNum > 0
    ensures Times(rankNum, chunk) >= chunk && Times(rankNum, chunk) == chunk * rankNum
  {
    TimesStep(0, rankNum, chunk);
    TimesIs(rankNum, chunk);
  }

  lemma CallGrows(n: nat, c: nat, call: Call, cnt: nat, bcast: nat, m: nat, before: seq<Op>, now: seq<Op>)
    requires c < n && call.chunk > 0 && Slots(call) > 0 && now == StepOps(n, c, call, cnt, bcast, m)
    ensures (before + CallOps(n, c, call, cnt, bcast, m)) + now == before + CallOps(n, c, call, cnt, bcast, m + 1)
  {
  }

  lemma OffStep(call: Call, m: nat)
    requires call.rankNum > 0
    ensures Off(call, m + 1) == Off(call, m) + call.chunk * call.rankNum >= Off(call, m) + call.chunk
  {
    StrideAtLeast(call.rankNum, call.chunk);
  }

  /** How many acknowledgements a sender has waited for before step m. */
  function Waits(call: Call, m: nat): nat
    requires call.chunk > 0
  {
    if call.acks && m > Slots(call) then m - Slots(call) else 0
  }
}
