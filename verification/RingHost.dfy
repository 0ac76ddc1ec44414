/** The host code of the ring collectives: the loops of tcclNicPublicWork and of
    the AllGather and ReduceScatter branches of tcclPublicWork, which put
    operations on a card's stream.  Each is proved to put there exactly the
    program of the stage automaton that the cards of `RingMachine` run. */
module RingHost {
  import opened Arith
  import opened Cycle
  import opened Memory
  import opened RingSchedule
  import opened SliceSize

  datatype Src = InBuff | OutBuff

  /** A stream operation.  Buffers are the card's own unless `to` names a peer. */
  datatype Op =
    | SendFlag(no: nat, to: nat, value: nat)          // peer's flag := value
    | WaitGeq(no: nat, value: nat)                    // wait until own flag >= value
    | WaitToken(value: nat)                           // split flag of the card, == value
    | SetToken(value: nat)
    | ReduceLocal(user: nat, len: nat, base: nat)     // reduce the card's ranks into inBuff
    | ReduceForCards(user: nat, len: nat, base: nat, pitch: nat)   // what is for each card, into its slot
    | MoveIn(user: nat, len: nat, base: nat)          // one rank per card: copy instead
    | MoveOut(user: nat, at: Region)                  // user's block into outBuff
    | OwnToUsers(user: nat, len: nat, dst: nat)
    | PushData(src: Src, at: Region, to: nat)         // to the same range of the peer's outBuff
    | Combine(at: Region)                             // outBuff[at] := inBuff[at] op outBuff[at]
    | CombineToUser(at: Region, dst: nat)
    | ToUsers(at: Region, dst: nat)                   // outBuff[at] to every rank of the card
    | CardBarrier

  /** The ranks with one rank id, one per card: who they are, and the call at hand. */
  datatype Column = Column(rankId: nat, rankNum: nat, split: bool, rankOf: seq<nat>, dataSize: nat)

  predicate ColumnOk(n: nat, col: Column) {
    col.rankId < col.rankNum && |col.rankOf| == n
  }

  function TakeTurn(col: Column, ops: seq<Op>): seq<Op>
    requires col.rankId < col.rankNum
  {
    (if col.split then [WaitToken(col.rankId)] else []) + ops
    + (if col.split then [SetToken(Next(col.rankNum, col.rankId))] else [])
  }

  function LoadOps(n: nat, col: Column, c: nat, ch: Chunk): seq<Op>
    requires c < n && ColumnOk(n, col)
  {
    match ch.kind
    case AllReduce =>
      if col.rankNum != 1 then TakeTurn(col, [ReduceLocal(ch.user, ch.bytes, HalfBase(ch.half))])
      else [MoveIn(ch.user, ch.bytes, HalfBase(ch.half))]
    case AllGather =>
      TakeTurn(col, [MoveOut(ch.user, Range(n, ch, c)),
                     OwnToUsers(ch.user, ch.bytes, ch.user + Times(col.rankOf[c], col.dataSize))])
    case ReduceScatter => TakeTurn(col, [ReduceForCards(ch.user, ch.bytes, HalfBase(ch.half), ch.pitch)])
  }

  function PushOps(n: nat, c: nat, ch: Chunk, t: nat): seq<Op>
    requires c < n && t < 2 * n
  {
    [PushData(if t == 0 && ch.kind != AllGather then InBuff else OutBuff, Range(n, ch, Back(n, c, t)), Next(n, c))]
  }

  function FoldOps(n: nat, col: Column, c: nat, ch: Chunk, t: nat): seq<Op>
    requires 2 <= n && c < n && ColumnOk(n, col) && t < 2 * n
  {
    var o := Back(n, Prev(n, c), t);
    if t < Folds(n, ch.kind) then [Combine(Range(n, ch, o))]
    else if ch.kind == AllGather then [ToUsers(Range(n, ch, o), ch.user + Times(col.rankOf[o], col.dataSize))]
    else []
  }

  function CopyOps(n: nat, c: nat, ch: Chunk): seq<Op>
    requires c < n
  {
    match ch.kind
    case AllReduce => [ToUsers(Region(HalfBase(ch.half), ch.bytes), ch.user)]
    case AllGather => []
    case ReduceScatter => [CombineToUser(Range(n, ch, Next(n, c)), ch.user)]
  }

  /** What one stage of card c puts on its stream. */
  function Ops(r: Ring, col: Column, c: nat, pc: Pc): seq<Op>
    requires 2 <= r.n && c < r.n && ColumnOk(r.n, col) && pc.g < |r.chunks| && PcOk(r, pc)
  {
    var ch := r.chunks[pc.g];
    match pc.st
    case SetReady => [SendFlag(1, Prev(r.n, c), Shakes(r, pc.g) + 1)]
    case AwaitReady => [WaitGeq(1, Shakes(r, pc.g) + 1)]
    case Load => LoadOps(r.n, col, c, ch)
    case Push(t) => PushOps(r.n, c, ch, t)
    case Flag(t) => [SendFlag(0, Next(r.n, c), Base(r, pc.g) + t + 1)]
    case Await(t) => [WaitGeq(0, Base(r, pc.g) + t + 1)]
    case Fold(t) => FoldOps(r.n, col, c, ch, t)
    case CopyOut => CopyOps(r.n, c, ch)
  }

  // ---- the operations of a call, from its chunks and counter values -----------

  function SendsFrom(n: nat, col: Column, c: nat, cnt: nat, ch: Chunk, t: nat): seq<Op>
    requires 2 <= n && c < n && ColumnOk(n, col) && t <= Sends(n, ch.kind)
    decreases Sends(n, ch.kind) - t
  {
    if t == Sends(n, ch.kind) then []
    else
      PushOps(n, c, ch, t) + [SendFlag(0, Next(n, c), cnt + t + 1), WaitGeq(0, cnt + t + 1)]
      + FoldOps(n, col, c, ch, t) + SendsFrom(n, col, c, cnt, ch, t + 1)
  }

  /** The sends of a chunk from the use of block t on. */
  function FromFoldOn(n: nat, col: Column, c: nat, cnt: nat, ch: Chunk, t: nat): seq<Op>
    requires 2 <= n && c < n && ColumnOk(n, col) && t < Sends(n, ch.kind)
  {
    FoldOps(n, col, c, ch, t) + SendsFrom(n, col, c, cnt, ch, t + 1)
  }

  lemma NothingLeft(n: nat, col: Column, c: nat, cnt: nat, ch: Chunk)
    requires 2 <= n && c < n && ColumnOk(n, col) && ch.kind == ReduceScatter
    ensures FromFoldOn(n, col, c, cnt, ch, n - 2) == []
  {
  }

  function ChunkOps(n: nat, col: Column, c: nat, cnt: nat, ch: Chunk): seq<Op>
    requires 2 <= n && c < n && ColumnOk(n, col)
  {
    LoadOps(n, col, c, ch) + SendsFrom(n, col, c, cnt, ch, 0) + CopyOps(n, c, ch)
  }

  /** All chunks of a call, the send counter starting at `cnt`. */
  function CallOps(n: nat, col: Column, c: nat, cnt: nat, cs: seq<Chunk>): seq<Op>
    requires 2 <= n && c < n && ColumnOk(n, col)
    decreases |cs|
  {
    if cs == [] then []
    else ChunkOps(n, col, c, cnt, cs[0]) + CallOps(n, col, c, cnt + Sends(n, cs[0].kind), cs[1..])
  }

  /** What is left of a call, which ends before chunk h, for a card at `pc`. */
  function Rest(r: Ring, col: Column, c: nat, pc: Pc, h: nat): seq<Op>
    requires 2 <= r.n && c < r.n && ColumnOk(r.n, col) && pc.g < h <= |r.chunks| && PcOk(r, pc)
  {
    var (ch, cnt, v) := (r.chunks[pc.g], Base(r, pc.g), Shakes(r, pc.g) + 1);
    match pc.st
    case SetReady => [SendFlag(1, Prev(r.n, c), v)] + ([WaitGeq(1, v)] + FromLoad(r, col, c, pc.g, h))
    case AwaitReady => [WaitGeq(1, v)] + FromLoad(r, col, c, pc.g, h)
    case Load => FromLoad(r, col, c, pc.g, h)
    case Push(t) => FromPush(r, col, c, pc.g, t, h)
    case Flag(t) => [SendFlag(0, Next(r.n, c), cnt + t + 1)]
        + ([WaitGeq(0, cnt + t + 1)] + FromFold(r, col, c, pc.g, t, h))
    case Await(t) => [WaitGeq(0, cnt + t + 1)] + FromFold(r, col, c, pc.g, t, h)
    case Fold(t) => FromFold(r, col, c, pc.g, t, h)
    case CopyOut => FromCopy(r, col, c, pc.g, h)
  }

  function FromCopy(r: Ring, col: Column, c: nat, g: nat, h: nat): seq<Op>
    requires 2 <= r.n && c < r.n && ColumnOk(r.n, col) && g < h <= |r.chunks|
  {
    CopyOps(r.n, c, r.chunks[g]) + CallOps(r.n, col, c, Base(r, g + 1), r.chunks[g + 1..h])
  }

  function FromPush(r: Ring, col: Column, c: nat, g: nat, t: nat, h: nat): seq<Op>
    requires 2 <= r.n && c < r.n && ColumnOk(r.n, col) && g < h <= |r.chunks| && t <= Sends(r.n, Kinds(r, g))
  {
    SendsFrom(r.n, col, c, Base(r, g), r.chunks[g], t) + FromCopy(r, col, c, g, h)
  }

  function FromFold(r: Ring, col: Column, c: nat, g: nat, t: nat, h: nat): seq<Op>
    requires 2 <= r.n && c < r.n && ColumnOk(r.n, col) && g < h <= |r.chunks| && t < Sends(r.n, Kinds(r, g))
  {
    FoldOps(r.n, col, c, r.chunks[g], t) + FromPush(r, col, c, g, t + 1, h)
  }

  function FromLoad(r: Ring, col: Column, c: nat, g: nat, h: nat): seq<Op>
    requires 2 <= r.n && c < r.n && ColumnOk(r.n, col) && g < h <= |r.chunks|
  {
    LoadOps(r.n, col, c, r.chunks[g]) + FromPush(r, col, c, g, 0, h)
  }

  lemma Regroup(a: seq<Op>, x: Op, y: Op, b: seq<Op>, d: seq<Op>, e: seq<Op>)
    ensures (a + [x, y] + b + d) + e == a + ([x] + ([y] + (b + (d + e))))
  {
  }

  /** The whole call, as its first card stage sees it. */
  lemma CallIsRest(r: Ring, col: Column, c: nat, g: nat, cs: seq<Chunk>)
    requires 2 <= r.n && c < r.n && ColumnOk(r.n, col) && cs != []
    requires g + |cs| <= |r.chunks| && r.chunks[g..g + |cs|] == cs
    ensures CallOps(r.n, col, c, Base(r, g), cs) == FromLoad(r, col, c, g, g + |cs|)
  {
    var h := g + |cs|;
    assert r.chunks[g] == cs[0] && r.chunks[g + 1..h] == cs[1..];
    CallHead(r.n, col, c, Base(r, g), cs, Base(r, g + 1));
  }

  lemma CallHead(n: nat, col: Column, c: nat, cnt: nat, cs: seq<Chunk>, next: nat)
    requires 2 <= n && c < n && ColumnOk(n, col) && cs != [] && next == cnt + Sends(n, cs[0].kind)
    ensures
      CallOps(n, col, c, cnt, cs) ==
      LoadOps(n, col, c, cs[0]) + (SendsFrom(n, col, c, cnt, cs[0], 0)
        + (CopyOps(n, c, cs[0]) + CallOps(n, col, c, next, cs[1..])))
  {
    FourParts(LoadOps(n, col, c, cs[0]), SendsFrom(n, col, c, cnt, cs[0], 0), CopyOps(n, c, cs[0]),
      CallOps(n, col, c, next, cs[1..]));
  }

  lemma FourParts(a: seq<Op>, b: seq<Op>, d: seq<Op>, e: seq<Op>)
    ensures (a + b + d) + e == a + (b + (d + e))
  {
  }

  lemma PushIsProgram(r: Ring, col: Column, c: nat, g: nat, t: nat, h: nat)
    requires 2 <= r.n && c < r.n && ColumnOk(r.n, col) && g < h <= |r.chunks| && t < Sends(r.n, Kinds(r, g))
    ensures FromPush(r, col, c, g, t, h) ==
            PushOps(r.n, c, r.chunks[g], t) + Rest(r, col, c, Pc(g, Flag(t)), h)
  {
    var (ch, v) := (r.chunks[g], Base(r, g) + t + 1);
    Regroup(PushOps(r.n, c, ch, t), SendFlag(0, Next(r.n, c), v), WaitGeq(0, v), FoldOps(r.n, col, c, ch, t),
            SendsFrom(r.n, col, c, Base(r, g), ch, t + 1), FromCopy(r, col, c, g, h));
  }

  lemma FoldIsProgram(r: Ring, col: Column, c: nat, g: nat, t: nat, h: nat)
    requires 2 <= r.n && c < r.n && ColumnOk(r.n, col) && g < h <= |r.chunks| && t < Sends(r.n, Kinds(r, g))
    ensures FromPush(r, col, c, g, t + 1, h) == Rest(r, col, c, Advance(r, Pc(g, Fold(t))), h)
  {
    if t + 1 == Sends(r.n, Kinds(r, g)) {
      LastSend(r, col, c, g, h);
    } else {
      assert Advance(r, Pc(g, Fold(t))) == Pc(g, Push(t + 1));
    }
  }

  lemma LastSend(r: Ring, col: Column, c: nat, g: nat, h: nat)
    requires 2 <= r.n && c < r.n && ColumnOk(r.n, col) && g < h <= |r.chunks|
    ensures FromPush(r, col, c, g, Sends(r.n, Kinds(r, g)), h) == FromCopy(r, col, c, g, h)
  {
    assert [] + FromCopy(r, col, c, g, h) == FromCopy(r, col, c, g, h);
  }

  lemma CopyIsProgram(r: Ring, col: Column, c: nat, g: nat, h: nat)
    requires 2 <= r.n && c < r.n && ColumnOk(r.n, col) && g < h <= |r.chunks|
    requires g + 1 < h ==> !r.chunks[g + 1].opens
    ensures FromCopy(r, col, c, g, h) ==
            CopyOps(r.n, c, r.chunks[g]) + (if g + 1 == h then [] else Rest(r, col, c, First(r, g + 1), h))
  {
    if g + 1 < h {
      var more := r.chunks[g + 1..h];
      assert g + 1 + |more| == h;
      CallIsRest(r, col, c, g + 1, more);
    }
  }

  lemma SendStages(r: Ring, col: Column, c: nat, pc: Pc, h: nat)
    requires 2 <= r.n && c < r.n && ColumnOk(r.n, col) && pc.g < h <= |r.chunks| && PcOk(r, pc)
    requires pc.st.Push? || pc.st.Flag? || pc.st.Await? || pc.st.Fold?
    ensures Rest(r, col, c, pc, h) == Ops(r, col, c, pc) + Rest(r, col, c, Advance(r, pc), h)
  {
    var Pc(g, st) := pc;
    if st.Push? {
      PushIsProgram(r, col, c, g, st.t, h);
    } else if st.Fold? {
      FoldIsProgram(r, col, c, g, st.t, h);
    } else {
      FlagIsProgram(r, col, c, pc, h);
    }
  }

  lemma FlagIsProgram(r: Ring, col: Column, c: nat, pc: Pc, h: nat)
    requires 2 <= r.n && c < r.n && ColumnOk(r.n, col) && pc.g < h <= |r.chunks| && PcOk(r, pc)
    requires pc.st.Flag? || pc.st.Await?
    ensures Rest(r, col, c, pc, h) == Ops(r, col, c, pc) + Rest(r, col, c, Advance(r, pc), h)
  {
    var t := pc.st.t;
    if pc.st.Flag? {
      assert Advance(r, pc) == Pc(pc.g, Await(t));
    } else {
      assert Advance(r, pc) == Pc(pc.g, Fold(t));
    }
  }

  lemma OpeningStages(r: Ring, col: Column, c: nat, pc: Pc, h: nat)
    requires 2 <= r.n && c < r.n && ColumnOk(r.n, col) && pc.g < h <= |r.chunks| && PcOk(r, pc)
    requires pc.st.SetReady? || pc.st.AwaitReady? || pc.st.Load?
    ensures Rest(r, col, c, pc, h) == Ops(r, col, c, pc) + Rest(r, col, c, Advance(r, pc), h)
  {
    match pc.st
    case SetReady => assert Advance(r, pc) == Pc(pc.g, AwaitReady);
    case AwaitReady => assert Advance(r, pc) == Pc(pc.g, Load);
    case Load => assert Advance(r, pc) == Pc(pc.g, Push(0));
  }

  /** The stream of a call is executed stage by stage: what is left begins with the
      operations of the stage at hand and goes on with what is left after it. */
  lemma StreamIsProgram(r: Ring, col: Column, c: nat, pc: Pc, h: nat)
    requires 2 <= r.n && c < r.n && ColumnOk(r.n, col) && pc.g < h <= |r.chunks| && PcOk(r, pc)
    requires pc.g + 1 < h ==> !r.chunks[pc.g + 1].opens
    ensures
      var last := pc.st.CopyOut? && pc.g + 1 == h;
      Rest(r, col, c, pc, h) == Ops(r, col, c, pc) + (if last then [] else Rest(r, col, c, Advance(r, pc), h))
  {
    if pc.st.CopyOut? {
      CopyIsProgram(r, col, c, pc.g, h);
    } else if pc.st.SetReady? || pc.st.AwaitReady? || pc.st.Load? {
      OpeningStages(r, col, c, pc, h);
    } else {
      SendStages(r, col, c, pc, h);
    }
  }

  // ---- the chunks of one call -------------------------------------------------

  /** AllReduce: element counts of the call, of a chunk and of the stride between two
      chunks of one rank; bytes of a slot and of an element. */
  datatype Cut = Cut(total: nat, chunk: nat, stride: nat, pitch: nat, typelen: nat)

  /** The chunks from element `cnt` on, the k-th and later of the call. */
  function AllReduceChunks(cut: Cut, cnt: nat, k: nat): seq<Chunk>
    requires cut.stride > 0
    decreases cut.total - cnt
  {
    if cnt >= cut.total then []
    else
      var count := if cut.chunk + cnt > cut.total then cut.total - cnt else cut.chunk;
      [Chunk(AllReduce, k == 0, k % 2, cut.pitch, cut.pitch, Times(cnt, cut.typelen), Times(count, cut.typelen))]
      + AllReduceChunks(cut, cnt + cut.stride, k + 1)
  }

  /** AllGather and ReduceScatter: steps k.. of `steps`, each of at most `slice` bytes
      of the `size` bytes of a block; `stepNo` counts steps over all calls. */
  function SliceChunks(kind: Kind, size: nat, slice: nat, stepNo: nat, k: nat, steps: nat): seq<Chunk>
    requires k <= steps
    decreases steps - k
  {
    if k == steps then []
    else
      var len := if Times(k + 1, slice) < size then slice else Minus(size, Times(k, slice));
      [Chunk(kind, k == 0, (stepNo + k) % 2, slice, len, Times(k, slice), len)]
      + SliceChunks(kind, size, slice, stepNo, k + 1, steps)
  }

  function Minus(a: nat, b: nat): nat {
    if b <= a then a - b else 0
  }

  /** Steps of at most `slice` bytes for `size` bytes. */
  function StepCount(size: nat, slice: nat): nat
    requires slice > 0
  {
    (size + slice - 1) / slice
  }

  /** The ranks with one number: this one's, how many a card has, and who they are. */
  datatype Plan = Plan(rankId: nat, rankNum: nat, rankOf: seq<nat>)

  /** How tcclNicPublicWork cuts a call whose slices are at most `stepLen` bytes. */
  function NicCut(n: nat, rankNum: nat, total: nat, stepLen: nat, typelen: nat): Cut
    requires typelen > 0
  {
    var chunk := stepLen / typelen * n;
    Cut(total, chunk, rankNum * chunk, stepLen / typelen * typelen, typelen)
  }

  /** The slots that the AllReduce loops compute with remainders. */
  lemma LoopSlots(n: nat, c: nat, i: nat)
    requires 2 <= n && c < n && i < n
    ensures (c - i + n - 1) % n == Back(n, Prev(n, c), i)
    ensures (c - i + n) % n == Back(n, c, i)
    ensures (c - i + n + 1) % n == Back(n, c, n - 1 + i)
  {
    SmallMod(n, c - i + n - 1);
    SmallMod(n, c - i + n);
    SmallMod(n, c - i + n + 1);
  }

  /** One AllReduce send, spelled out. */
  lemma SendUnfolds(n: nat, col: Column, c: nat, cnt: nat, ch: Chunk, t: nat)
    requires 2 <= n && c < n && ColumnOk(n, col) && ch.kind == AllReduce && t < 2 * n - 2
    ensures
      var next := Next(n, c);
      SendsFrom(n, col, c, cnt, ch, t) ==
        [PushData(if t == 0 then InBuff else OutBuff, Range(n, ch, Back(n, c, t)), next),
         SendFlag(0, next, cnt + t + 1), WaitGeq(0, cnt + t + 1)]
        + (if t < n - 1 then [Combine(Range(n, ch, Back(n, Prev(n, c), t)))] else [])
        + SendsFrom(n, col, c, cnt, ch, t + 1)
  {
  }

  /** One ReduceScatter send, from the reduction before it. */
  lemma ScatterUnfolds(n: nat, col: Column, c: nat, cnt: nat, ch: Chunk, i: nat)
    requires 2 <= i < n && c < n && ColumnOk(n, col) && ch.kind == ReduceScatter
    ensures
      var (next, v, at) := (Next(n, c), cnt + i, Slot(HalfBase(ch.half), ch.pitch, ch.len, Back(n, c, i)));
      FromFoldOn(n, col, c, cnt, ch, i - 2) ==
      [Combine(at), PushData(OutBuff, at, next), SendFlag(0, next, v), WaitGeq(0, v)]
        + FromFoldOn(n, col, c, cnt, ch, i - 1)
  {
    var (next, v, at) := (Next(n, c), cnt + i, Slot(HalfBase(ch.half), ch.pitch, ch.len, Back(n, c, i)));
    assert FoldOps(n, col, c, ch, i - 2) == [Combine(at)];
    assert SendsFrom(n, col, c, cnt, ch, i - 1) ==
           [PushData(OutBuff, at, next)] + [SendFlag(0, next, v), WaitGeq(0, v)]
           + FoldOps(n, col, c, ch, i - 1) + SendsFrom(n, col, c, cnt, ch, i);
  }

  /** One AllGather send and the delivery of the block that came in meanwhile. */
  lemma GatherUnfolds(n: nat, col: Column, c: nat, cnt: nat, ch: Chunk, i: nat)
    requires 2 <= n && i < n - 1 && c < n && ColumnOk(n, col) && ch.kind == AllGather
    ensures
      var (next, v, o) := (Next(n, c), cnt + i + 1, Back(n, c, i + 1));
      var (mine, theirs) := (Slot(HalfBase(ch.half), ch.pitch, ch.len, Back(n, c, i)),
        Slot(HalfBase(ch.half), ch.pitch, ch.len, o));
      SendsFrom(n, col, c, cnt, ch, i) ==
      [PushData(OutBuff, mine, next), SendFlag(0, next, v), WaitGeq(0, v),
        ToUsers(theirs, ch.user + Times(col.rankOf[o], col.dataSize))]
      + SendsFrom(n, col, c, cnt, ch, i + 1)
  {
    assert Back(n, c, i + 1) == Back(n, Prev(n, c), i);
  }

  /** A communicator's counters, and the stream it fills. */
  class Comm {
    const n: nat
    const card: nat
    var nextcnt: nat
    var prevcnt: nat
    var stepNo: nat
    var stream: seq<Op>

    constructor (n: nat, card: nat)
      requires card < n
      ensures this.n == n && this.card == card
      ensures nextcnt == prevcnt == stepNo == 0 && stream == []
    {
      this.n, this.card := n, card;
      nextcnt, prevcnt, stepNo, stream := 0, 0, 0, [];
    }

    method DevSyncToPrevCard()
      requires card < n
      modifies this`prevcnt, this`stream
      ensures prevcnt == old(prevcnt) + 1
      ensures stream == old(stream) + [SendFlag(1, Prev(n, card), prevcnt), WaitGeq(1, prevcnt)]
    {
      prevcnt := prevcnt + 1;
      SmallMod(n, card + n - 1);
      stream := stream + [SendFlag(1, (card + n - 1) % n, prevcnt), WaitGeq(1, prevcnt)];
    }

    method RankSendPost(src: Src, at: Region)
      requires card < n
      modifies this`nextcnt, this`stream
      ensures nextcnt == old(nextcnt) + 1
      ensures stream == old(stream)
        + [PushData(src, at, Next(n, card)), SendFlag(0, Next(n, card), nextcnt), WaitGeq(0, nextcnt)]
    {
      nextcnt := nextcnt + 1;
      SmallMod(n, card + 1);
      var next := (card + 1) % n;
      stream := stream + [PushData(src, at, next), SendFlag(0, next, nextcnt), WaitGeq(0, nextcnt)];
    }

    /** The byte ranges of the slots of one loop step. */
    method LoopRanges(i: nat, offset: nat, sizeslice: nat, ghost ch: Chunk)
      returns (send: Region, recv: Region, again: Region)
      requires 2 <= n && card < n && i < n
      requires ch.kind == AllReduce && HalfBase(ch.half) == offset && ch.pitch == ch.len == sizeslice
      ensures send == Range(n, ch, Back(n, card, i))
      ensures recv == Range(n, ch, Back(n, Prev(n, card), i))
      ensures again == Range(n, ch, Back(n, card, n - 1 + i))
    {
      LoopSlots(n, card, i);
      var sslice, rslice, gslice := (card - i + n) % n, (card - i + n - 1) % n, (card - i + n + 1) % n;
      TimesIs(sslice, sizeslice);
      TimesIs(rslice, sizeslice);
      TimesIs(gslice, sizeslice);
      send := Region(offset + sslice * sizeslice, sizeslice);
      recv := Region(offset + rslice * sizeslice, sizeslice);
      again := Region(offset + gslice * sizeslice, sizeslice);
    }

    /** The i-th send that reduces: slot c - i out, slot c - i - 1 in and reduced. */
    method ReduceSend(i: nat, offset: nat, sizeslice: nat, ghost col: Column, ghost ch: Chunk, ghost cnt: nat,
        ghost goal: seq<Op>)
      requires 2 <= n && card < n && ColumnOk(n, col) && i < n - 1 && nextcnt == cnt + i
      requires ch.kind == AllReduce && HalfBase(ch.half) == offset && ch.pitch == ch.len == sizeslice
      requires stream + SendsFrom(n, col, card, cnt, ch, i) == goal
      modifies this`nextcnt, this`stream
      ensures nextcnt == old(nextcnt) + 1
      ensures stream + SendsFrom(n, col, card, cnt, ch, i + 1) == goal
    {
      var send, recv, _ := LoopRanges(i, offset, sizeslice, ch);
      SendUnfolds(n, col, card, cnt, ch, i);
      var src := if i == 0 then InBuff else OutBuff;
      SendCombine(src, send, recv, SendsFrom(n, col, card, cnt, ch, i + 1), goal);
    }

    /** A push and the reduction of what arrives; `tail` is what comes after. */
    method SendCombine(src: Src, send: Region, recv: Region, ghost tail: seq<Op>, ghost goal: seq<Op>)
      requires card < n
      requires
        var (next, v) := (Next(n, card), nextcnt + 1);
        stream + ([PushData(src, send, next), SendFlag(0, next, v), WaitGeq(0, v)] + [Combine(recv)] + tail) == goal
      modifies this`nextcnt, this`stream
      ensures nextcnt == old(nextcnt) + 1 && stream + tail == goal
    {
      RankSendPost(src, send);
      stream := stream + [Combine(recv)];
    }

    /** The i-th send that distributes: slot c - i + 1 out. */
    method GatherSend(i: nat, offset: nat, sizeslice: nat, ghost col: Column, ghost ch: Chunk)
      requires 2 <= n && card < n && ColumnOk(n, col) && i < n - 1
      requires ch.kind == AllReduce && HalfBase(ch.half) == offset && ch.pitch == ch.len == sizeslice
      requires nextcnt >= n - 1 + i
      modifies this`nextcnt, this`stream
      ensures nextcnt == old(nextcnt) + 1
      ensures stream + SendsFrom(n, col, card, nextcnt - n - i, ch, n + i) ==
              old(stream) + SendsFrom(n, col, card, old(nextcnt) - (n - 1 + i), ch, n - 1 + i)
    {
      var _, _, again := LoopRanges(i, offset, sizeslice, ch);
      SendUnfolds(n, col, card, nextcnt - (n - 1 + i), ch, n - 1 + i);
      RankSendPost(OutBuff, again);
    }

    /** The sends of one AllReduce chunk that reduce. */
    method ReduceAround(offset: nat, sizeslice: nat, ghost col: Column, ghost ch: Chunk)
      requires 2 <= n && card < n && ColumnOk(n, col)
      requires ch.kind == AllReduce && HalfBase(ch.half) == offset && ch.pitch == ch.len == sizeslice
      modifies this`nextcnt, this`stream
      ensures nextcnt == old(nextcnt) + n - 1
      ensures stream + SendsFrom(n, col, card, old(nextcnt), ch, n - 1) ==
              old(stream) + SendsFrom(n, col, card, old(nextcnt), ch, 0)
    {
      ghost var cnt, goal := nextcnt, stream + SendsFrom(n, col, card, nextcnt, ch, 0);
      ReduceSend(0, offset, sizeslice, col, ch, cnt, goal);
      var i := 1;
      while i < n - 1
        invariant 1 <= i <= n - 1 && nextcnt == cnt + i
        invariant stream + SendsFrom(n, col, card, cnt, ch, i) == goal
      {
        ReduceSend(i, offset, sizeslice, col, ch, cnt, goal);
        i := i + 1;
      }
    }

    /** The sends of one AllReduce chunk that distribute. */
    method GatherAround(offset: nat, sizeslice: nat, ghost col: Column, ghost ch: Chunk)
      requires 2 <= n && card < n && ColumnOk(n, col) && nextcnt >= n - 1
      requires ch.kind == AllReduce && HalfBase(ch.half) == offset && ch.pitch == ch.len == sizeslice
      modifies this`nextcnt, this`stream
      ensures nextcnt == old(nextcnt) + n - 1
      ensures stream == old(stream) + SendsFrom(n, col, card, old(nextcnt) - (n - 1), ch, n - 1)
    {
      ghost var cnt := nextcnt - (n - 1);
      ghost var goal := stream + SendsFrom(n, col, card, cnt, ch, n - 1);
      var i := 0;
      while i < n - 1
        invariant 0 <= i <= n - 1 && nextcnt == cnt + n - 1 + i
        invariant stream + SendsFrom(n, col, card, cnt, ch, n - 1 + i) == goal
      {
        GatherSend(i, offset, sizeslice, col, ch);
        i := i + 1;
      }
    }

    /** All sends of one AllReduce chunk. */
    method SendAround(offset: nat, sizeslice: nat, ghost col: Column, ghost ch: Chunk)
      requires 2 <= n && card < n && ColumnOk(n, col)
      requires ch.kind == AllReduce && HalfBase(ch.half) == offset && ch.pitch == ch.len == sizeslice
      modifies this`nextcnt, this`stream
      ensures nextcnt == old(nextcnt) + Sends(n, AllReduce)
      ensures stream == old(stream) + SendsFrom(n, col, card, old(nextcnt), ch, 0)
    {
      ReduceAround(offset, sizeslice, col, ch);
      GatherAround(offset, sizeslice, col, ch);
    }

    method TokenWait(col: Column)
      modifies this`stream
      ensures stream == old(stream) + if col.split then [WaitToken(col.rankId)] else []
    {
      if col.split { stream := stream + [WaitToken(col.rankId)]; }
    }

    method TokenPass(col: Column)
      requires col.rankId < col.rankNum
      modifies this`stream
      ensures stream == old(stream) + if col.split then [SetToken(Next(col.rankNum, col.rankId))] else []
    {
      if col.split {
        SmallMod(col.rankNum, col.rankId + 1);
        stream := stream + [SetToken((col.rankId + 1) % col.rankNum)];
      }
    }

    method TokenReset(col: Column)
      modifies this`stream
      ensures stream == old(stream) + if col.split && col.rankId == 0 then [SetToken(0)] else []
    {
      if col.split && col.rankId == 0 { stream := stream + [SetToken(0)]; }
    }

    /** The card's ranks are reduced, or its only rank copied, into inBuff. */
    method LoadChunk(offset: nat, user: nat, bytes: nat, col: Column, ghost ch: Chunk)
      requires card < n && ColumnOk(n, col)
      requires ch.kind == AllReduce && HalfBase(ch.half) == offset && ch.user == user && ch.bytes == bytes
      modifies this`stream
      ensures stream == old(stream) + LoadOps(n, col, card, ch)
    {
      if col.rankNum != 1 {
        TokenWait(col);
        stream := stream + [ReduceLocal(user, bytes, offset)];
        TokenPass(col);
      } else {
        stream := stream + [MoveIn(user, bytes, offset)];
      }
    }

    /** One pass of the chunk loop of tcclNicPublicWork, for the chunk at element `cnt`. */
    method NicAllReduceChunk(total: nat, stepCount: nat, sizeslice: nat, typelen: nat, cnt: nat, step: nat,
        col: Column, ghost ch: Chunk)
      requires 2 <= n && card < n && ColumnOk(n, col) && cnt < total
      requires
        var count := if stepCount + cnt > total then total - cnt else stepCount;
        ch == Chunk(AllReduce, step == 0, step % 2, sizeslice, sizeslice,
                    Times(cnt, typelen), Times(count, typelen))
      modifies this`nextcnt, this`stream
      ensures nextcnt == old(nextcnt) + Sends(n, AllReduce)
      ensures stream == old(stream) + ChunkOps(n, col, card, old(nextcnt), ch)
    {
      var offset := if step % 2 == 0 then 0 else HALF;
      var count := if stepCount + cnt > total then total - cnt else stepCount;
      TimesIs(cnt, typelen);
      TimesIs(count, typelen);
      LoadChunk(offset, cnt * typelen, count * typelen, col, ch);
      SendAround(offset, sizeslice, col, ch);
      stream := stream + [ToUsers(Region(offset, count * typelen), cnt * typelen)];
    }

    /** tcclNicPublicWork, entered after the previous-card handshake, on the two cards or more
        that its callers send there (src/enqueue.cc:481-490). */
    method NicAllReduce(total: nat, dataSize: nat, typelen: nat, rankId: nat, rankNum: nat)
      requires 2 <= n && card < n && rankId < rankNum && n * rankNum > 0
      requires 0 < typelen <= NicStepLen(dataSize, n * rankNum, rankNum)
      modifies this`nextcnt, this`stream
      ensures
        var cut := NicCut(n, rankNum, total, NicStepLen(dataSize, n * rankNum, rankNum), typelen);
        cut.stride > 0 && NicDone(total, cut, rankId, rankNum, old(nextcnt), old(stream))
    {
      var nranks := n * rankNum;
      var stepLen := NicStepLen(dataSize, nranks, rankNum);
      ChunkedAllReduce(total, stepLen, typelen, rankId, rankNum);
    }

    /** The chunks of a call are on the stream, between the writes of the token. */
    ghost predicate NicDone(total: nat, cut: Cut, rankId: nat, rankNum: nat, cnt: nat, before: seq<Op>)
      requires 2 <= n && card < n && rankId < rankNum && cut.stride > 0
      reads this`nextcnt, this`stream
    {
      var col := Column(rankId, rankNum, cut.stride < total, seq(n, _ => 0), 0);
      var cs := AllReduceChunks(cut, rankId * cut.chunk, 0);
      var reset := if col.split && rankId == 0 then [SetToken(0)] else [];
      && nextcnt == cnt + CallSends(n, cs)
      && stream == before + reset + CallOps(n, col, card, cnt, cs) + [CardBarrier] + reset
    }

    method ChunkedAllReduce(total: nat, stepLen: nat, typelen: nat, rankId: nat, rankNum: nat)
      requires 2 <= n && card < n && rankId < rankNum && 0 < typelen <= stepLen
      modifies this`nextcnt, this`stream
      ensures
        var cut := NicCut(n, rankNum, total, stepLen, typelen);
        cut.stride > 0 && NicDone(total, cut, rankId, rankNum, old(nextcnt), old(stream))
    {
      var stepCount := stepLen / typelen * n;
      SliceCount(stepLen, typelen, n);
      ghost var cut := NicCut(n, rankNum, total, stepLen, typelen);
      var col := Column(rankId, rankNum, rankNum * stepCount < total, seq(n, _ => 0), 0);
      TokenReset(col);
      var cntslice := stepCount / n;
      ChunkLoop(total, stepCount, cntslice * typelen, typelen, rankId * stepCount, rankNum * stepCount, col, cut);
      stream := stream + [CardBarrier];
      TokenReset(col);
    }

    /** One pass, as progress through the call's chunks `cs`. */
    method ChunkPass(total: nat, stepCount: nat, sizeslice: nat, typelen: nat, cnt: nat, step: nat, col: Column,
                     ghost cut: Cut, ghost cs: seq<Chunk>)
      requires 2 <= n && card < n && ColumnOk(n, col) && cnt < total && cut.stride > 0
      requires cut == Cut(total, stepCount, cut.stride, sizeslice, typelen) && cs == AllReduceChunks(cut, cnt, step)
      modifies this`nextcnt, this`stream
      ensures cs != [] && cs[1..] == AllReduceChunks(cut, cnt + cut.stride, step + 1)
      ensures nextcnt + CallSends(n, cs[1..]) == old(nextcnt) + CallSends(n, cs)
      ensures stream + CallOps(n, col, card, nextcnt, cs[1..]) == old(stream) + CallOps(n, col, card, old(nextcnt), cs)
    {
      NextChunk(cut, cnt, step);
      ghost var before, all, more := stream, CallOps(n, col, card, nextcnt, cs), cs[1..];
      ghost var now, later := CallSplit(n, col, card, nextcnt, cs);
      NicAllReduceChunk(total, stepCount, sizeslice, typelen, cnt, step, col, cs[0]);
      Glue(before, stream, now, later, all);
    }

    method ChunkLoop(total: nat, stepCount: nat, sizeslice: nat, typelen: nat, first: nat, stride: nat, col: Column,
        ghost cut: Cut)
      requires 2 <= n && card < n && ColumnOk(n, col)
      requires stride > 0 && cut == Cut(total, stepCount, stride, sizeslice, typelen)
      modifies this`nextcnt, this`stream
      ensures
        var cs := AllReduceChunks(cut, first, 0);
        && nextcnt == old(nextcnt) + CallSends(n, cs)
        && stream == old(stream) + CallOps(n, col, card, old(nextcnt), cs)
    {
      var cnt, step := first, 0;
      ghost var cs := AllReduceChunks(cut, cnt, 0);
      ghost var goal, end := stream + CallOps(n, col, card, nextcnt, cs), nextcnt + CallSends(n, cs);
      while cnt < total
        invariant cs == AllReduceChunks(cut, cnt, step) && end == nextcnt + CallSends(n, cs)
        invariant stream + CallOps(n, col, card, nextcnt, cs) == goal
        decreases total - cnt
      {
        ChunkPass(total, stepCount, sizeslice, typelen, cnt, step, col, cut, cs);
        cnt, step, cs := cnt + stride, step + 1, cs[1..];
      }
    }

    /** Slot ranges of the AllGather and ReduceScatter loops: slot (c - i) mod n. */
    method SlotRange(i: nat, crossBase: nat, sliceSize: nat, realSize: nat) returns (slot: nat, at: Region)
      requires 2 <= n && card < n && i <= n
      ensures slot == Back(n, card, i) && at == Slot(crossBase, sliceSize, realSize, slot)
    {
      SmallMod(n, card - i + n);
      slot := (card - i + n) % n;
      TimesIs(slot, sliceSize);
      at := Region(slot * sliceSize + crossBase, realSize);
    }

    /** One step of the AllGather branch: the block of card c - i out, that of card
        c - i - 1 in and to the users. */
    method AllGatherSend(i: nat, crossBase: nat, sliceSize: nat, realSize: nat, sliceOff: nat, col: Column,
        ghost ch: Chunk, ghost cnt: nat, ghost goal: seq<Op>)
      requires 2 <= n && card < n && ColumnOk(n, col) && i < n - 1 && nextcnt == cnt + i
      requires ch.kind == AllGather && HalfBase(ch.half) == crossBase && ch.pitch == sliceSize
      requires ch.len == realSize && ch.user == sliceOff
      requires stream + SendsFrom(n, col, card, cnt, ch, i) == goal
      modifies this`nextcnt, this`stream
      ensures nextcnt == old(nextcnt) + 1
      ensures stream + SendsFrom(n, col, card, cnt, ch, i + 1) == goal
    {
      var sendCard, sendAt := SlotRange(i, crossBase, sliceSize, realSize);
      var recvCard, recvAt := SlotRange(i + 1, crossBase, sliceSize, realSize);
      var dst := BlockOf(recvCard, sliceOff, col);
      GatherUnfolds(n, col, card, cnt, ch, i);
      SendDeliver(sendAt, recvAt, dst, SendsFrom(n, col, card, cnt, ch, i + 1), goal);
    }

    /** Where the block of card o goes in the users' memory. */
    method BlockOf(o: nat, sliceOff: nat, col: Column) returns (dst: nat)
      requires o < |col.rankOf|
      ensures dst == sliceOff + Times(col.rankOf[o], col.dataSize)
    {
      TimesIs(col.rankOf[o], col.dataSize);
      dst := sliceOff + col.rankOf[o] * col.dataSize;
    }

    /** A push, and the delivery of what has arrived; `tail` is what comes after. */
    method SendDeliver(mine: Region, theirs: Region, dst: nat, ghost tail: seq<Op>, ghost goal: seq<Op>)
      requires card < n
      requires
        var (next, v) := (Next(n, card), nextcnt + 1);
        stream + ([PushData(OutBuff, mine, next), SendFlag(0, next, v), WaitGeq(0, v), ToUsers(theirs, dst)]
          + tail) == goal
      modifies this`nextcnt, this`stream
      ensures nextcnt == old(nextcnt) + 1 && stream + tail == goal
    {
      RankSendPost(OutBuff, mine);
      stream := stream + [ToUsers(theirs, dst)];
    }

    method AllGatherLoad(crossBase: nat, sliceSize: nat, realSize: nat, sliceOff: nat, col: Column, ghost ch: Chunk)
      requires 2 <= n && card < n && ColumnOk(n, col)
      requires ch == Chunk(AllGather, ch.opens, ch.half, sliceSize, realSize, sliceOff, realSize)
      requires HalfBase(ch.half) == crossBase
      modifies this`stream
      ensures stream == old(stream) + LoadOps(n, col, card, ch)
    {
      var _, at := SlotRange(0, crossBase, sliceSize, realSize);
      var dst := BlockOf(card, sliceOff, col);
      TokenWait(col);
      stream := stream + [MoveOut(sliceOff, at), OwnToUsers(sliceOff, realSize, dst)];
      TokenPass(col);
    }

    method AllGatherSends(crossBase: nat, sliceSize: nat, realSize: nat, sliceOff: nat, col: Column, ghost ch: Chunk)
      requires 2 <= n && card < n && ColumnOk(n, col)
      requires ch.kind == AllGather && HalfBase(ch.half) == crossBase && ch.pitch == sliceSize
      requires ch.len == realSize && ch.user == sliceOff
      modifies this`nextcnt, this`stream
      ensures nextcnt == old(nextcnt) + n - 1
      ensures stream == old(stream) + SendsFrom(n, col, card, old(nextcnt), ch, 0)
    {
      ghost var cnt, goal := nextcnt, stream + SendsFrom(n, col, card, nextcnt, ch, 0);
      var i := 0;
      while i < n - 1
        invariant 0 <= i <= n - 1 && nextcnt == cnt + i
        invariant stream + SendsFrom(n, col, card, cnt, ch, i) == goal
      {
        AllGatherSend(i, crossBase, sliceSize, realSize, sliceOff, col, ch, cnt, goal);
        i := i + 1;
      }
    }

    /** One pass of the AllGather step loop. */
    method AllGatherStep(crossBase: nat, sliceSize: nat, realSize: nat, sliceOff: nat, col: Column, ghost ch: Chunk)
      requires 2 <= n && card < n && ColumnOk(n, col)
      requires ch == Chunk(AllGather, ch.opens, ch.half, sliceSize, realSize, sliceOff, realSize)
      requires HalfBase(ch.half) == crossBase
      modifies this`nextcnt, this`stream
      ensures nextcnt == old(nextcnt) + n - 1
      ensures stream == old(stream) + ChunkOps(n, col, card, old(nextcnt), ch)
    {
      ghost var before := stream;
      AllGatherLoad(crossBase, sliceSize, realSize, sliceOff, col, ch);
      ghost var loaded, cnt := stream, nextcnt;
      AllGatherSends(crossBase, sliceSize, realSize, sliceOff, col, ch);
      ThreeParts(before, LoadOps(n, col, card, ch), SendsFrom(n, col, card, cnt, ch, 0), []);
    }

    /** One pass of the ReduceScatter loop over destination cards: the slot of card
        c - i is reduced and sent on. */
    method ScatterSend(i: nat, crossBase: nat, sliceSize: nat, realSize: nat, ghost col: Column, ghost ch: Chunk)
      requires 2 <= i < n && card < n && ColumnOk(n, col) && nextcnt >= i - 1
      requires ch.kind == ReduceScatter && HalfBase(ch.half) == crossBase && ch.pitch == sliceSize && ch.len == realSize
      modifies this`nextcnt, this`stream
      ensures nextcnt == old(nextcnt) + 1
      ensures stream + FromFoldOn(n, col, card, nextcnt - i, ch, i - 1) ==
              old(stream) + FromFoldOn(n, col, card, old(nextcnt) - i + 1, ch, i - 2)
    {
      var _, at := SlotRange(i, crossBase, sliceSize, realSize);
      ghost var cnt := nextcnt - i + 1;
      ghost var goal := stream + FromFoldOn(n, col, card, cnt, ch, i - 2);
      ScatterUnfolds(n, col, card, cnt, ch, i);
      CombineSend(at, FromFoldOn(n, col, card, cnt, ch, i - 1), goal);
    }

    /** A reduction and the push of its result; `tail` is what comes after. */
    method CombineSend(at: Region, ghost tail: seq<Op>, ghost goal: seq<Op>)
      requires card < n
      requires
        var (next, v) := (Next(n, card), nextcnt + 1);
        stream + ([Combine(at), PushData(OutBuff, at, next), SendFlag(0, next, v), WaitGeq(0, v)] + tail) == goal
      modifies this`nextcnt, this`stream
      ensures nextcnt == old(nextcnt) + 1 && stream + tail == goal
    {
      stream := stream + [Combine(at)];
      RankSendPost(OutBuff, at);
    }

    method ScatterFirst(crossBase: nat, sliceSize: nat, realSize: nat, ghost col: Column, ghost ch: Chunk)
      requires 2 <= n && card < n && ColumnOk(n, col)
      requires ch.kind == ReduceScatter && HalfBase(ch.half) == crossBase && ch.pitch == sliceSize && ch.len == realSize
      modifies this`nextcnt, this`stream
      ensures nextcnt == old(nextcnt) + 1
      ensures stream + FromFoldOn(n, col, card, old(nextcnt), ch, 0) ==
              old(stream) + SendsFrom(n, col, card, old(nextcnt), ch, 0)
    {
      var _, at := SlotRange(1, crossBase, sliceSize, realSize);
      ghost var (next, v) := (Next(n, card), nextcnt + 1);
      assert SendsFrom(n, col, card, nextcnt, ch, 0) ==
             [PushData(InBuff, at, next)] + [SendFlag(0, next, v), WaitGeq(0, v)]
             + FoldOps(n, col, card, ch, 0) + SendsFrom(n, col, card, nextcnt, ch, 1);
      RankSendPost(InBuff, at);
    }

    method ScatterSends(crossBase: nat, sliceSize: nat, realSize: nat, ghost col: Column, ghost ch: Chunk)
      requires 2 <= n && card < n && ColumnOk(n, col)
      requires ch.kind == ReduceScatter && HalfBase(ch.half) == crossBase && ch.pitch == sliceSize && ch.len == realSize
      modifies this`nextcnt, this`stream
      ensures nextcnt == old(nextcnt) + n - 1
      ensures stream == old(stream) + SendsFrom(n, col, card, old(nextcnt), ch, 0)
    {
      ghost var cnt, goal := nextcnt, stream + SendsFrom(n, col, card, nextcnt, ch, 0);
      ScatterFirst(crossBase, sliceSize, realSize, col, ch);
      var i := 2;
      while i < n
        invariant 2 <= i <= n && nextcnt == cnt + i - 1
        invariant stream + FromFoldOn(n, col, card, cnt, ch, i - 2) == goal
      {
        ScatterSend(i, crossBase, sliceSize, realSize, col, ch);
        i := i + 1;
      }
      NothingLeft(n, col, card, cnt, ch);
    }

    /** One pass of the ReduceScatter step loop. */
    method ReduceScatterStep(crossBase: nat, sliceSize: nat, realSize: nat, sliceOff: nat, col: Column, ghost ch: Chunk)
      requires 2 <= n && card < n && ColumnOk(n, col)
      requires ch == Chunk(ReduceScatter, ch.opens, ch.half, sliceSize, realSize, sliceOff, realSize)
      requires HalfBase(ch.half) == crossBase
      modifies this`nextcnt, this`stream
      ensures nextcnt == old(nextcnt) + n - 1
      ensures stream == old(stream) + ChunkOps(n, col, card, old(nextcnt), ch)
    {
      ghost var before := stream;
      TokenWait(col);
      stream := stream + [ReduceForCards(sliceOff, realSize, crossBase, sliceSize)];
      TokenPass(col);
      assert stream == before + LoadOps(n, col, card, ch);
      ghost var cnt := nextcnt;
      ScatterSends(crossBase, sliceSize, realSize, col, ch);
      var _, at := SlotRange(0, crossBase, sliceSize, realSize);
      stream := stream + [CombineToUser(at, sliceOff)];
      ThreeParts(before, LoadOps(n, col, card, ch), SendsFrom(n, col, card, cnt, ch, 0), [CombineToUser(at, sliceOff)]);
    }

    /** One pass, as progress through the call's chunks `cs`. */
    method SlicePass(kind: Kind, dataSize: nat, sliceSize: nat, step: nat, steps: nat, col: Column,
                     ghost from: nat, ghost cs: seq<Chunk>)
      requires 2 <= n && card < n && ColumnOk(n, col) && kind != AllReduce
      requires step < steps && Times(step, sliceSize) < dataSize && stepNo == from + step
      requires cs == SliceChunks(kind, dataSize, sliceSize, from, step, steps)
      modifies this
      ensures stepNo == old(stepNo) + 1 && prevcnt == old(prevcnt)
      ensures cs[1..] == SliceChunks(kind, dataSize, sliceSize, from, step + 1, steps)
      ensures nextcnt + CallSends(n, cs[1..]) == old(nextcnt) + CallSends(n, cs)
      ensures stream + CallOps(n, col, card, nextcnt, cs[1..]) == old(stream) + CallOps(n, col, card, old(nextcnt), cs)
    {
      var crossBase := if stepNo % 2 == 0 then 0 else HALF;
      TimesIs(step, sliceSize);
      TimesIs(step + 1, sliceSize);
      var sliceOff := step * sliceSize;
      var realSize := if (step + 1) * sliceSize < dataSize then sliceSize else dataSize - step * sliceSize;
      stepNo := stepNo + 1;
      ghost var ch, next := NextSlice(kind, dataSize, sliceSize, from, step, steps, cs);
      FirstSlice(crossBase, sliceSize, realSize, sliceOff, col, kind, ch, cs);
    }

    /** The first chunk of what is left of a call. */
    method FirstSlice(crossBase: nat, sliceSize: nat, realSize: nat, sliceOff: nat, col: Column, kind: Kind,
        ghost ch: Chunk, ghost cs: seq<Chunk>)
      requires 2 <= n && card < n && ColumnOk(n, col) && kind != AllReduce && cs != [] && cs[0] == ch
      requires ch == Chunk(kind, ch.opens, ch.half, sliceSize, realSize, sliceOff, realSize)
      requires HalfBase(ch.half) == crossBase
      modifies this`nextcnt, this`stream
      ensures nextcnt + CallSends(n, cs[1..]) == old(nextcnt) + CallSends(n, cs)
      ensures stream + CallOps(n, col, card, nextcnt, cs[1..]) == old(stream) + CallOps(n, col, card, old(nextcnt), cs)
    {
      ghost var before, all := stream, CallOps(n, col, card, nextcnt, cs);
      ghost var now, later := CallSplit(n, col, card, nextcnt, cs);
      OneSlice(crossBase, sliceSize, realSize, sliceOff, col, kind, ch);
      Glue(before, stream, now, later, all);
    }

    method OneSlice(crossBase: nat, sliceSize: nat, realSize: nat, sliceOff: nat, col: Column, kind: Kind,
        ghost ch: Chunk)
      requires 2 <= n && card < n && ColumnOk(n, col) && kind != AllReduce
      requires ch == Chunk(kind, ch.opens, ch.half, sliceSize, realSize, sliceOff, realSize)
      requires HalfBase(ch.half) == crossBase
      modifies this`nextcnt, this`stream
      ensures nextcnt == old(nextcnt) + Sends(n, kind)
      ensures stream == old(stream) + ChunkOps(n, col, card, old(nextcnt), ch)
    {
      if kind == AllGather {
        AllGatherStep(crossBase, sliceSize, realSize, sliceOff, col, ch);
      } else {
        ReduceScatterStep(crossBase, sliceSize, realSize, sliceOff, col, ch);
      }
    }

    /** The AllGather and ReduceScatter branches of tcclPublicWork, after the handshake, on the
        two cards or more that their callers send there (src/enqueue.cc:522-533, 550-563). */
    method SlicedCollective(kind: Kind, dataSize: nat, rankId: nat, rankNum: nat, rankOf: seq<nat>)
      requires 2 <= n && card < n && rankId < rankNum && |rankOf| == n && kind != AllReduce
      modifies this
      ensures CollectiveSlice(n) > 0 && prevcnt == old(prevcnt)
      ensures SlicedDone(kind, dataSize, CollectiveSlice(n), Plan(rankId, rankNum, rankOf), old(nextcnt),
        old(stepNo), old(stream))
    {
      CollectiveSliceFits(n);
      CollectiveBy(kind, dataSize, CollectiveSlice(n), rankId, rankNum, rankOf);
    }

    /** The steps of a call are on the stream, after the reset of the token. */
    ghost predicate SlicedDone(kind: Kind, dataSize: nat, slice: nat, plan: Plan, cnt: nat, step: nat, before: seq<Op>)
      requires 2 <= n && card < n && plan.rankId < plan.rankNum && |plan.rankOf| == n && slice > 0
      reads this`nextcnt, this`stepNo, this`stream
    {
      var steps := StepCount(dataSize, slice);
      var col := Column(plan.rankId, plan.rankNum, steps > 1, plan.rankOf, dataSize);
      var cs := SliceChunks(kind, dataSize, slice, step, 0, steps);
      var reset := if col.split && plan.rankId == 0 then [SetToken(0)] else [];
      && nextcnt == cnt + CallSends(n, cs) && stepNo == step + steps
      && stream == before + reset + CallOps(n, col, card, cnt, cs) + [CardBarrier]
    }

    method CollectiveBy(kind: Kind, dataSize: nat, sliceSize: nat, rankId: nat, rankNum: nat, rankOf: seq<nat>)
      requires 2 <= n && card < n && rankId < rankNum && |rankOf| == n && kind != AllReduce && sliceSize > 0
      modifies this
      ensures prevcnt == old(prevcnt)
      ensures SlicedDone(kind, dataSize, sliceSize, Plan(rankId, rankNum, rankOf), old(nextcnt), old(stepNo),
        old(stream))
    {
      var steps := (dataSize + sliceSize - 1) / sliceSize;
      var col := Column(rankId, rankNum, steps > 1, rankOf, dataSize);
      TokenReset(col);
      assert Covers(dataSize, sliceSize, steps);
      SliceLoop(kind, dataSize, sliceSize, steps, col);
      stream := stream + [CardBarrier];
    }

    method SliceLoop(kind: Kind, dataSize: nat, sliceSize: nat, steps: nat, col: Column)
      requires 2 <= n && card < n && ColumnOk(n, col) && kind != AllReduce
      requires Covers(dataSize, sliceSize, steps)
      modifies this
      ensures
        var cs := SliceChunks(kind, dataSize, sliceSize, old(stepNo), 0, steps);
        && nextcnt == old(nextcnt) + CallSends(n, cs) && prevcnt == old(prevcnt) && stepNo == old(stepNo) + steps
        && stream == old(stream) + CallOps(n, col, card, old(nextcnt), cs)
    {
      ghost var from, cs := stepNo, SliceChunks(kind, dataSize, sliceSize, stepNo, 0, steps);
      ghost var goal, end := stream + CallOps(n, col, card, nextcnt, cs), nextcnt + CallSends(n, cs);
      var step := 0;
      while step < steps
        invariant 0 <= step <= steps && stepNo == from + step && prevcnt == old(prevcnt)
        invariant cs == SliceChunks(kind, dataSize, sliceSize, from, step, steps) && end == nextcnt + CallSends(n, cs)
        invariant stream + CallOps(n, col, card, nextcnt, cs) == goal
      {
        EachInside(dataSize, sliceSize, steps, step);
        SlicePass(kind, dataSize, sliceSize, step, steps, col, from, cs);
        step, cs := step + 1, cs[1..];
      }
    }
  }

  /** The first of the chunks that are left. */
  lemma NextSlice(kind: Kind, dataSize: nat, slice: nat, from: nat, k: nat, steps: nat, cs: seq<Chunk>)
    returns (ch: Chunk, next: seq<Chunk>)
    requires k < steps && Times(k, slice) < dataSize && cs == SliceChunks(kind, dataSize, slice, from, k, steps)
    ensures cs == [ch] + next && next == cs[1..] == SliceChunks(kind, dataSize, slice, from, k + 1, steps)
      && ch == cs[0]
    ensures
      var len := if Times(k + 1, slice) < dataSize then slice else dataSize - Times(k, slice);
      ch == Chunk(kind, ch.opens, (from + k) % 2, slice, len, Times(k, slice), len)
  {
    ch, next := cs[0], cs[1..];
  }

  /** Every step of a sliced collective starts inside the block. */
  lemma StepInside(size: nat, slice: nat, k: nat)
    requires slice > 0 && k < (size + slice - 1) / slice
    ensures Times(k, slice) < size
  {
    var q := (size + slice - 1) / slice;
    TimesIs(q, slice);
    TimesStep(k, q, slice);
  }

  ghost predicate Covers(size: nat, slice: nat, steps: nat) {
    slice > 0 && steps == (size + slice - 1) / slice
  }

  lemma EachInside(size: nat, slice: nat, steps: nat, k: nat)
    requires Covers(size, slice, steps) && k < steps
    ensures Times(k, slice) < size
  {
    StepInside(size, slice, k);
  }

  lemma ThreeParts(before: seq<Op>, a: seq<Op>, b: seq<Op>, c: seq<Op>)
    ensures before + a + b + c == before + (a + b + c)
  {
  }

  /** How much the send counter grows in a call. */
  function CallSends(n: nat, cs: seq<Chunk>): nat
    requires 2 <= n
  {
    if cs == [] then 0 else Sends(n, cs[0].kind) + CallSends(n, cs[1..])
  }

  lemma CallSplit(n: nat, col: Column, c: nat, cnt: nat, cs: seq<Chunk>) returns (now: seq<Op>, later: seq<Op>)
    requires 2 <= n && c < n && ColumnOk(n, col) && cs != []
    ensures now == ChunkOps(n, col, c, cnt, cs[0])
    ensures later == CallOps(n, col, c, cnt + Sends(n, cs[0].kind), cs[1..])
    ensures CallOps(n, col, c, cnt, cs) == now + later
  {
    now := ChunkOps(n, col, c, cnt, cs[0]);
    later := CallOps(n, col, c, cnt + Sends(n, cs[0].kind), cs[1..]);
  }

  lemma Glue(before: seq<Op>, after: seq<Op>, now: seq<Op>, later: seq<Op>, all: seq<Op>)
    requires after == before + now && all == now + later
    ensures after + later == before + all
  {
  }

  lemma NextChunk(cut: Cut, cnt: nat, k: nat)
    requires cut.stride > 0 && cnt < cut.total
    ensures
      var cs := AllReduceChunks(cut, cnt, k);
      var count := if cut.chunk + cnt > cut.total then cut.total - cnt else cut.chunk;
      && cs != [] && cs[1..] == AllReduceChunks(cut, cnt + cut.stride, k + 1)
      && cs[0] == Chunk(AllReduce, k == 0, k % 2, cut.pitch, cut.pitch, Times(cnt, cut.typelen),
        Times(count, cut.typelen))
  {
  }

  lemma SliceCount(stepLen: nat, typelen: nat, n: nat)
    requires 0 < typelen <= stepLen && n > 0
    ensures stepLen / typelen * n > 0 && stepLen / typelen * n / n == stepLen / typelen
  {
    var k := stepLen / typelen;
    assert k > 0;
    MulStep(0, k, n);
    DivUnique(n, k * n, k, 0);
  }
}
