/** The direct AllReduce inside one node (allReduceOnenodeA2A in src/proc.cc): the program
    of every card, and the host loop that emits it.

    In a chunk every card sends slice j to card j, card j reduces all of them and sends the
    result to everyone.  Slices of a short chunk may be empty; nobody waits for those. */
module DirectAllReduce {
  import opened Arith
  import opened Cycle

  /** Card i places after c. */
  function Peer(n: nat, c: nat, i: nat): (p: nat)
    requires c < n && 0 < i < n
    ensures p < n && p != c && Place(n, c, p) == i
  {
    if c + i < n then c + i else c + i - n
  }

  /** How many places after c card p is. */
  function Place(n: nat, c: nat, p: nat): (i: nat)
    requires c < n && p < n
    ensures i < n && (i == 0 <==> p == c)
  {
    if c <= p then p - c else p + n - c
  }

  lemma PeerPlace(n: nat, c: nat, p: nat)
    requires c < n && p < n && c != p
    ensures Peer(n, c, Place(n, c, p)) == p
  {
  }

  // ---- slices of a chunk ------------------------------------------------------------------

  /** Elements of slice i when a chunk of `count` is cut into slices of `slice`. */
  function SliceCount(count: nat, slice: nat, i: nat): nat {
    if Times(i + 1, slice) < count then slice
    else if Times(i, slice) < count then count - Times(i, slice)
    else 0
  }

  function SumTo(count: nat, slice: nat, i: nat): nat {
    if i == 0 then 0 else SumTo(count, slice, i - 1) + SliceCount(count, slice, i - 1)
  }

  /** The slices partition the chunk: slice i begins where the ones before it end, as far as
      the chunk goes, and all of it is covered when it fits. */
  lemma {:induction false} SlicesPartition(count: nat, slice: nat, i: nat)
    ensures SumTo(count, slice, i) == if Times(i, slice) <= count then Times(i, slice) else count
    decreases i
  {
    if i > 0 { SlicesPartition(count, slice, i - 1); }
  }

  /** Only a chunk that is not full has empty slices, and they are at its end. */
  lemma EmptySlices(count: nat, slice: nat, n: nat, i: nat)
    requires slice > 0 && i < n
    ensures SliceCount(count, slice, i) == 0 <==> count <= Times(i, slice)
    ensures count == Times(n, slice) ==> SliceCount(count, slice, i) > 0
  {
    TimesStep(i, n, slice);
  }

  function Counts(n: nat, slice: nat, count: nat): (counts: seq<nat>)
    ensures |counts| == n && forall i :: 0 <= i < n ==> counts[i] == SliceCount(count, slice, i)
  {
    seq(n, i requires 0 <= i < n => SliceCount(count, slice, i))
  }

  /** `count` elements from element `user` on, cut into slices. */
  function ChunkOf(n: nat, slice: nat, first: bool, stepNo: nat, user: nat, count: nat): Chunk {
    Chunk(first, stepNo % 2, Counts(n, slice, count), slice, user, count)
  }

  /** The chunks of one call, from element cnt on: `step` elements at a time, `stride` apart. */
  function CallChunks(n: nat, slice: nat, total: nat, stride: nat, cnt: nat, first: bool, stepNo: nat): seq<Chunk>
    requires stride > 0
    decreases total - cnt
  {
    var step := Times(n, slice);
    if cnt >= total then []
    else
      [ChunkOf(n, slice, first, stepNo, cnt, if step + cnt > total then total - cnt else step)]
      + CallChunks(n, slice, total, stride, cnt + stride, false, stepNo + 1)
  }

  predicate InCall(n: nat, cs: seq<Chunk>, k: nat)
    requires k < |cs|
  {
    && |cs[k].counts| == n && cs[k].half < 2
    && (k > 0 ==> !cs[k].opens && cs[k].half != cs[k - 1].half && NoneEmpty(cs[k - 1].counts))
  }

  /** Within a call halves alternate, and only the last chunk can have empty slices. */
  lemma {:induction false} OnlyLastIsShort(n: nat, slice: nat, total: nat, stride: nat, cnt: nat, first: bool,
      stepNo: nat)
    requires slice > 0 && stride >= Times(n, slice) && stride > 0
    ensures
      var cs := CallChunks(n, slice, total, stride, cnt, first, stepNo);
      && (cs != [] ==> cs[0].opens == first && cs[0].half == stepNo % 2)
      && forall k :: 0 <= k < |cs| ==> InCall(n, cs, k)
    decreases total - cnt
  {
    if cnt < total {
      var (rest, cs) := (CallChunks(n, slice, total, stride, cnt + stride, false, stepNo + 1),
                         CallChunks(n, slice, total, stride, cnt, first, stepNo));
      OnlyLastIsShort(n, slice, total, stride, cnt + stride, false, stepNo + 1);
      forall k | 0 <= k < |cs| ensures InCall(n, cs, k) {
        if k > 0 {
          assert InCall(n, rest, k - 1);
          if k == 1 { FullChunk(n, slice); }
        }
      }
    }
  }

  lemma FullChunk(n: nat, slice: nat)
    requires slice > 0
    ensures NoneEmpty(Counts(n, slice, Times(n, slice)))
  {
    forall i | 0 <= i < n
      ensures Counts(n, slice, Times(n, slice))[i] > 0
    {
      EmptySlices(Times(n, slice), slice, n, i);
    }
  }

  /** A call extends the program of all calls. */
  lemma DirectCallExtends(p: Mesh, slice: nat, total: nat, stride: nat, cnt: nat, stepNo: nat)
    requires Valid(p) && slice > 0 && stride >= Times(p.n, slice) && stride > 0
    ensures Valid(p.(chunks := p.chunks + CallChunks(p.n, slice, total, stride, cnt, true, stepNo)))
  {
    var cs := CallChunks(p.n, slice, total, stride, cnt, true, stepNo);
    OnlyLastIsShort(p.n, slice, total, stride, cnt, true, stepNo);
    var p' := p.(chunks := p.chunks + cs);
    forall k: nat | k < |p'.chunks|
      ensures |p'.chunks[k].counts| == p'.n && p'.chunks[k].half < 2
      ensures k > 0 && !p'.chunks[k].opens ==> Follows(p', k)
    {
      if k >= |p.chunks| {
        assert InCall(p.n, cs, k - |p.chunks|) && p'.chunks[k] == cs[k - |p.chunks|];
      } else {
        assert p'.chunks[k] == p.chunks[k];
        if k > 0 && !p'.chunks[k].opens { assert Follows(p, k); }
      }
    }
  }

  method SliceCounts(cardNum: nat, cntslice: nat, cpyCnt: nat) returns (counts: seq<nat>)
    ensures |counts| == cardNum && forall i :: 0 <= i < cardNum ==> counts[i] == SliceCount(cpyCnt, cntslice, i)
  {
    counts := seq(cardNum, _ => 0);
    for ci := 0 to cardNum
      invariant |counts| == cardNum && forall i :: 0 <= i < ci ==> counts[i] == SliceCount(cpyCnt, cntslice, i)
    {
      TimesIs(ci, cntslice);
      TimesIs(ci + 1, cntslice);
      var tmpcnt := if (ci + 1) * cntslice < cpyCnt then cntslice
                    else if ci * cntslice < cpyCnt then cpyCnt - ci * cntslice
                    else 0;
      counts := counts[ci := tmpcnt];
    }
  }

  // ---- the program of a card ---------------------------------------------------------------

  /** One pass of the loop: whether it opens a call, the half of the cross buffers, the
      elements of each card's slice, the elements that a slice may have, and where in the
      users' memory the chunk begins and how many elements it has. */
  datatype Chunk = Chunk(opens: bool, half: nat, counts: seq<nat>, slice: nat, user: nat, count: nat)

  /** `n` cards; all chunks of all calls; a2acnt and prevcnt before the first. */
  datatype Mesh = Mesh(n: nat, chunks: seq<Chunk>, a2acnt: nat, prevcnt: nat)

  /** Within a call halves alternate and only the last chunk has empty slices. */
  ghost predicate Valid(p: Mesh) {
    && 2 <= p.n
    && (forall k :: 0 <= k < |p.chunks| ==> |p.chunks[k].counts| == p.n && p.chunks[k].half < 2)
    && (forall k :: 0 < k < |p.chunks| && !p.chunks[k].opens ==> Follows(p, k))
  }

  predicate Follows(p: Mesh, k: nat)
    requires 0 < k < |p.chunks|
  {
    p.chunks[k].half != p.chunks[k - 1].half && NoneEmpty(p.chunks[k - 1].counts)
  }

  predicate NoneEmpty(counts: seq<nat>) {
    forall i :: 0 <= i < |counts| ==> counts[i] > 0
  }

  datatype Stage =
    | Shake(i: nat) | AwaitShake(i: nat)            // card_num - 1 handshakes before a call
    | Load
    | Push1(i: nat) | Flag1(i: nat) | Await1(i: nat)   // to and from the card i places after
    | Fold
    | Push2(i: nat) | Flag2(i: nat) | Await2(i: nat)
    | CopyOut

  datatype Pc = Pc(k: nat, st: Stage)

  function First(p: Mesh, k: nat): Pc {
    Pc(k, if k < |p.chunks| && p.chunks[k].opens then Shake(1) else Load)
  }

  /** The order of the stages of a chunk. */
  function Rank(n: nat, st: Stage): nat {
    match st
    case Shake(i) => 2 * i
    case AwaitShake(i) => 2 * i + 1
    case Load => 2 * n
    case Push1(i) => 2 * n + 2 * i
    case Flag1(i) => 2 * n + 2 * i + 1
    case Await1(i) => 4 * n + i
    case Fold => 5 * n
    case Push2(i) => 5 * n + 2 * i
    case Flag2(i) => 5 * n + 2 * i + 1
    case Await2(i) => 7 * n + i
    case CopyOut => 8 * n
  }

  predicate StageOk(n: nat, opens: bool, st: Stage) {
    match st
    case Shake(i) => opens && 0 < i < n
    case AwaitShake(i) => opens && 0 < i < n
    case Push1(i) => 0 < i < n
    case Flag1(i) => 0 < i < n
    case Await1(i) => 0 < i < n
    case Push2(i) => 0 < i < n
    case Flag2(i) => 0 < i < n
    case Await2(i) => 0 < i < n
    case _ => true
  }

  predicate PcOk(p: Mesh, pc: Pc) {
    if pc.k < |p.chunks| then StageOk(p.n, p.chunks[pc.k].opens, pc.st) else pc == Pc(|p.chunks|, Load)
  }

  function Advance(p: Mesh, pc: Pc): (pc': Pc)
    requires 2 <= p.n && pc.k < |p.chunks| && PcOk(p, pc)
    ensures PcOk(p, pc')
  {
    var k := pc.k;
    match pc.st
    case Shake(i) => Pc(k, AwaitShake(i))
    case AwaitShake(i) => Pc(k, if i + 1 < p.n then Shake(i + 1) else Load)
    case Load => Pc(k, Push1(1))
    case Push1(i) => Pc(k, Flag1(i))
    case Flag1(i) => Pc(k, if i + 1 < p.n then Push1(i + 1) else Await1(1))
    case Await1(i) => Pc(k, if i + 1 < p.n then Await1(i + 1) else Fold)
    case Fold => Pc(k, Push2(1))
    case Push2(i) => Pc(k, Flag2(i))
    case Flag2(i) => Pc(k, if i + 1 < p.n then Push2(i + 1) else Await2(1))
    case Await2(i) => Pc(k, if i + 1 < p.n then Await2(i + 1) else CopyOut)
    case CopyOut => First(p, k + 1)
  }

  lemma RankGrows(p: Mesh, pc: Pc)
    requires 2 <= p.n && pc.k < |p.chunks| && PcOk(p, pc) && pc.st != CopyOut
    ensures Rank(p.n, Advance(p, pc).st) > Rank(p.n, pc.st)
  {
  }

  // ---- stream operations ---------------------------------------------------------------------

  datatype Op =
    | SendFlag(to: nat, value: nat) | WaitFlag(value: nat)       // flag 1, to the previous card
    | LoadIn(half: nat, user: nat, count: nat)                   // the card's ranks, reduced, into inBuff
    | SetCnt(value: nat)
    | PushIn(half: nat, src: nat, to: nat, dst: nat, count: nat) // inBuff slice to a peer's outBuff
    | PushOut(half: nat, at: nat, to: nat, count: nat)           // reduced slice to a peer's inBuff
    | SendCnt(to: nat) | WaitCnt(from: nat, value: nat)
    | FoldSlices(half: nat, pitch: nat, own: nat, count: nat)    // outBuff slices, and the own one of inBuff
    | ToUsers(half: nat, user: nat, count: nat)

  /** Handshakes i and later. */
  function ShakeOps(n: nat, c: nat, cnt: nat, i: nat): seq<Op>
    requires c < n && 0 < i <= n
    decreases n - i
  {
    if i == n then [] else [SendFlag(Prev(n, c), cnt + i), WaitFlag(cnt + i)] + ShakeOps(n, c, cnt, i + 1)
  }

  function PushIn1(c: nat, ch: Chunk, peer: nat): Op
    requires peer < |ch.counts|
  {
    PushIn(ch.half, Times(peer, ch.slice), peer, Times(c, ch.slice), ch.counts[peer])
  }

  function PushOut1(c: nat, ch: Chunk, peer: nat): Op
    requires c < |ch.counts|
  {
    PushOut(ch.half, Times(c, ch.slice), peer, ch.counts[c])
  }

  function FoldOp(c: nat, ch: Chunk): Op
    requires c < |ch.counts|
  {
    FoldSlices(ch.half, ch.slice, c, ch.counts[c])
  }

  /** Sends i and later of the first and of the second exchange. */
  function SendOps1(n: nat, c: nat, ch: Chunk, i: nat): seq<Op>
    requires c < n == |ch.counts| && 0 < i <= n
    decreases n - i
  {
    if i == n then []
    else
      var peer := Peer(n, c, i);
      [PushIn1(c, ch, peer), SendCnt(peer)] + SendOps1(n, c, ch, i + 1)
  }

  function SendOps2(n: nat, c: nat, ch: Chunk, i: nat): seq<Op>
    requires c < n == |ch.counts| && 0 < i <= n
    decreases n - i
  {
    if i == n then [] else [PushOut1(c, ch, Peer(n, c, i)), SendCnt(Peer(n, c, i))] + SendOps2(n, c, ch, i + 1)
  }

  function WaitOps1(n: nat, c: nat, counts: seq<nat>, value: nat, i: nat): seq<Op>
    requires c < n == |counts| && 0 < i <= n
    decreases n - i
  {
    if i == n then []
    else (if counts[c] == 0 then [] else [WaitCnt(Peer(n, c, i), value)]) + WaitOps1(n, c, counts, value, i + 1)
  }

  function WaitOps2(n: nat, c: nat, counts: seq<nat>, value: nat, i: nat): seq<Op>
    requires c < n == |counts| && 0 < i <= n
    decreases n - i
  {
    if i == n then []
    else
      (if counts[Peer(n, c, i)] == 0 then [] else [WaitCnt(Peer(n, c, i), value)])
      + WaitOps2(n, c, counts, value, i + 1)
  }

  /** A chunk; `cnt` is a2acnt before it. */
  function ChunkOps(n: nat, c: nat, ch: Chunk, cnt: nat): seq<Op>
    requires 2 <= n && c < n == |ch.counts|
  {
    FirstExchange(n, c, ch, cnt + 1) + SecondExchange(n, c, ch, cnt + 2)
  }

  function FirstExchange(n: nat, c: nat, ch: Chunk, flag: nat): seq<Op>
    requires 2 <= n && c < n == |ch.counts|
  {
    [LoadIn(ch.half, ch.user, ch.count), SetCnt(flag)] + SendOps1(n, c, ch, 1) + WaitOps1(n, c, ch.counts, flag, 1)
  }

  function SecondExchange(n: nat, c: nat, ch: Chunk, flag: nat): seq<Op>
    requires 2 <= n && c < n == |ch.counts|
  {
    [FoldOp(c, ch), SetCnt(flag)] + SendOps2(n, c, ch, 1) + WaitOps2(n, c, ch.counts, flag, 1)
      + [ToUsers(ch.half, ch.user, ch.count)]
  }

  predicate AllOf(n: nat, cs: seq<Chunk>) {
    forall k :: 0 <= k < |cs| ==> |cs[k].counts| == n
  }

  lemma {:induction false} AllOfCall(n: nat, slice: nat, total: nat, stride: nat, cnt: nat, first: bool, stepNo: nat)
    requires stride > 0
    ensures AllOf(n, CallChunks(n, slice, total, stride, cnt, first, stepNo))
    decreases total - cnt
  {
    if cnt < total { AllOfCall(n, slice, total, stride, cnt + stride, false, stepNo + 1); }
  }

  /** All chunks of a call; `cnt` is a2acnt before it. */
  function CallOps(n: nat, c: nat, cs: seq<Chunk>, cnt: nat): seq<Op>
    requires 2 <= n && c < n && AllOf(n, cs)
    decreases |cs|
  {
    if cs == [] then [] else ChunkOps(n, c, cs[0], cnt) + CallOps(n, c, cs[1..], cnt + 2)
  }

  lemma CallHead(n: nat, c: nat, ch: Chunk, rest: seq<Chunk>, cnt: nat)
    requires 2 <= n && c < n && |ch.counts| == n && AllOf(n, rest)
    ensures AllOf(n, [ch] + rest)
    ensures CallOps(n, c, [ch] + rest, cnt) == ChunkOps(n, c, ch, cnt) + CallOps(n, c, rest, cnt + 2)
  {
    assert ([ch] + rest)[1..] == rest;
  }

  /** The first chunk from element cnt on, and the others. */
  lemma FirstChunk(n: nat, slice: nat, total: nat, stride: nat, cnt: nat, first: bool, stepNo: nat, count: nat)
    returns (ch: Chunk, rest: seq<Chunk>)
    requires stride > 0 && cnt < total && count == if Times(n, slice) + cnt > total then total - cnt
      else Times(n, slice)
    ensures ch == ChunkOf(n, slice, first, stepNo, cnt, count)
    ensures rest == CallChunks(n, slice, total, stride, cnt + stride, false, stepNo + 1) && AllOf(n, rest)
    ensures CallChunks(n, slice, total, stride, cnt, first, stepNo) == [ch] + rest && AllOf(n, [ch] + rest)
  {
    ch := ChunkOf(n, slice, first, stepNo, cnt, count);
    rest := CallChunks(n, slice, total, stride, cnt + stride, false, stepNo + 1);
    AllOfCall(n, slice, total, stride, cnt + stride, false, stepNo + 1);
  }

  // ---- the stages of a chunk, and the stream ------------------------------------------------------

  /** What one stage puts on the stream; `cnt` is a2acnt before the chunk and `shakes` prevcnt
      before the call. */
  function StageOps(n: nat, c: nat, ch: Chunk, cnt: nat, shakes: nat, st: Stage): seq<Op>
    requires 2 <= n && c < n == |ch.counts| && StageOk(n, ch.opens, st)
  {
    match st
    case Shake(i) => [SendFlag(Prev(n, c), shakes + i)]
    case AwaitShake(i) => [WaitFlag(shakes + i)]
    case Load => [LoadIn(ch.half, ch.user, ch.count), SetCnt(cnt + 1)]
    case Push1(i) => [PushIn1(c, ch, Peer(n, c, i))]
    case Flag1(i) => [SendCnt(Peer(n, c, i))]
    case Await1(i) => if ch.counts[c] == 0 then [] else [WaitCnt(Peer(n, c, i), cnt + 1)]
    case Fold => [FoldOp(c, ch), SetCnt(cnt + 2)]
    case Push2(i) => [PushOut1(c, ch, Peer(n, c, i))]
    case Flag2(i) => [SendCnt(Peer(n, c, i))]
    case Await2(i) => if ch.counts[Peer(n, c, i)] == 0 then [] else [WaitCnt(Peer(n, c, i), cnt + 2)]
    case CopyOut => [ToUsers(ch.half, ch.user, ch.count)]
  }

  /** What is left of the chunk for a card at a stage. */
  function Rest(n: nat, c: nat, ch: Chunk, cnt: nat, shakes: nat, st: Stage): seq<Op>
    requires 2 <= n && c < n == |ch.counts| && StageOk(n, ch.opens, st)
  {
    var (second, waits1) := (SecondExchange(n, c, ch, cnt + 2), WaitOps1(n, c, ch.counts, cnt + 1, 1));
    var waits2 := WaitOps2(n, c, ch.counts, cnt + 2, 1) + [ToUsers(ch.half, ch.user, ch.count)];
    match st
    case Shake(i) => ShakeOps(n, c, shakes, i) + ChunkOps(n, c, ch, cnt)
    case AwaitShake(i) => [WaitFlag(shakes + i)] + ShakeOps(n, c, shakes, i + 1)
        + ChunkOps(n, c, ch, cnt)
    case Load => ChunkOps(n, c, ch, cnt)
    case Push1(i) => SendOps1(n, c, ch, i) + waits1 + second
    case Flag1(i) => [SendCnt(Peer(n, c, i))] + SendOps1(n, c, ch, i + 1) + waits1 + second
    case Await1(i) => WaitOps1(n, c, ch.counts, cnt + 1, i) + second
    case Fold => second
    case Push2(i) => SendOps2(n, c, ch, i) + waits2
    case Flag2(i) => [SendCnt(Peer(n, c, i))] + SendOps2(n, c, ch, i + 1) + waits2
    case Await2(i) => WaitOps2(n, c, ch.counts, cnt + 2, i) + [ToUsers(ch.half, ch.user, ch.count)]
    case CopyOut => [ToUsers(ch.half, ch.user, ch.count)]
  }

  /** The stream is executed stage by stage: what is left begins with the operations of the stage
      at hand and goes on with what is left after it. */
  lemma StreamIsStages(p: Mesh, c: nat, pc: Pc, cnt: nat, shakes: nat)
    requires 2 <= p.n && pc.k < |p.chunks| && PcOk(p, pc) && c < p.n == |p.chunks[pc.k].counts| && pc.st != CopyOut
    ensures Advance(p, pc).k == pc.k
    ensures
      var ch := p.chunks[pc.k];
      Rest(p.n, c, ch, cnt, shakes, pc.st) ==
      StageOps(p.n, c, ch, cnt, shakes, pc.st) + Rest(p.n, c, ch, cnt, shakes, Advance(p, pc).st)
  {
    var ch := p.chunks[pc.k];
    match pc.st {
      case Shake(i) => FromShake(p.n, c, ch, cnt, shakes, i);
      case AwaitShake(i) => FromAwaitShake(p.n, c, ch, cnt, shakes, i);
      case Load => FromLoad(p.n, c, ch, cnt, shakes);
      case Push1(i) => FromPush1(p.n, c, ch, cnt, shakes, i);
      case Flag1(i) => FromFlag1(p.n, c, ch, cnt, shakes, i);
      case Await1(i) => FromAwait1(p.n, c, ch, cnt, shakes, i);
      case Fold => FromFold(p.n, c, ch, cnt, shakes);
      case Push2(i) => FromPush2(p.n, c, ch, cnt, shakes, i);
      case Flag2(i) => FromFlag2(p.n, c, ch, cnt, shakes, i);
      case Await2(i) => FromAwait2(p.n, c, ch, cnt, shakes, i);
    }
  }

  lemma FromShake(n: nat, c: nat, ch: Chunk, cnt: nat, shakes: nat, i: nat)
    requires 2 <= n && c < n == |ch.counts| && 0 < i < n && ch.opens
    ensures
      Rest(n, c, ch, cnt, shakes, Shake(i)) ==
      StageOps(n, c, ch, cnt, shakes, Shake(i)) + Rest(n, c, ch, cnt, shakes, AwaitShake(i))
  {
  }

  lemma FromAwaitShake(n: nat, c: nat, ch: Chunk, cnt: nat, shakes: nat, i: nat)
    requires 2 <= n && c < n == |ch.counts| && 0 < i < n && ch.opens
    ensures
      Rest(n, c, ch, cnt, shakes, AwaitShake(i)) ==
      StageOps(n, c, ch, cnt, shakes, AwaitShake(i))
        + Rest(n, c, ch, cnt, shakes, if i + 1 < n then Shake(i + 1) else Load)
  {
  }

  lemma FromLoad(n: nat, c: nat, ch: Chunk, cnt: nat, shakes: nat)
    requires 2 <= n && c < n == |ch.counts|
    ensures
      Rest(n, c, ch, cnt, shakes, Load) ==
      StageOps(n, c, ch, cnt, shakes, Load) + Rest(n, c, ch, cnt, shakes, Push1(1))
  {
  }

  lemma FromPush1(n: nat, c: nat, ch: Chunk, cnt: nat, shakes: nat, i: nat)
    requires 2 <= n && c < n == |ch.counts| && 0 < i < n
    ensures
      Rest(n, c, ch, cnt, shakes, Push1(i)) ==
      StageOps(n, c, ch, cnt, shakes, Push1(i)) + Rest(n, c, ch, cnt, shakes, Flag1(i))
  {
  }

  lemma FromFlag1(n: nat, c: nat, ch: Chunk, cnt: nat, shakes: nat, i: nat)
    requires 2 <= n && c < n == |ch.counts| && 0 < i < n
    ensures
      Rest(n, c, ch, cnt, shakes, Flag1(i)) ==
      StageOps(n, c, ch, cnt, shakes, Flag1(i))
        + Rest(n, c, ch, cnt, shakes, if i + 1 < n then Push1(i + 1) else Await1(1))
  {
  }

  lemma FromAwait1(n: nat, c: nat, ch: Chunk, cnt: nat, shakes: nat, i: nat)
    requires 2 <= n && c < n == |ch.counts| && 0 < i < n
    ensures
      Rest(n, c, ch, cnt, shakes, Await1(i)) ==
      StageOps(n, c, ch, cnt, shakes, Await1(i))
        + Rest(n, c, ch, cnt, shakes, if i + 1 < n then Await1(i + 1) else Fold)
  {
    var (now, later, rest) := (StageOps(n, c, ch, cnt, shakes, Await1(i)), WaitOps1(n, c, ch.counts, cnt + 1, i + 1),
                               SecondExchange(n, c, ch, cnt + 2));
    assert (now + later) + rest == now + (later + rest);
    assert [] + rest == rest;
  }

  lemma FromFold(n: nat, c: nat, ch: Chunk, cnt: nat, shakes: nat)
    requires 2 <= n && c < n == |ch.counts|
    ensures
      Rest(n, c, ch, cnt, shakes, Fold) ==
      StageOps(n, c, ch, cnt, shakes, Fold) + Rest(n, c, ch, cnt, shakes, Push2(1))
  {
  }

  lemma FromPush2(n: nat, c: nat, ch: Chunk, cnt: nat, shakes: nat, i: nat)
    requires 2 <= n && c < n == |ch.counts| && 0 < i < n
    ensures
      Rest(n, c, ch, cnt, shakes, Push2(i)) ==
      StageOps(n, c, ch, cnt, shakes, Push2(i)) + Rest(n, c, ch, cnt, shakes, Flag2(i))
  {
  }

  lemma FromFlag2(n: nat, c: nat, ch: Chunk, cnt: nat, shakes: nat, i: nat)
    requires 2 <= n && c < n == |ch.counts| && 0 < i < n
    ensures
      Rest(n, c, ch, cnt, shakes, Flag2(i)) ==
      StageOps(n, c, ch, cnt, shakes, Flag2(i))
        + Rest(n, c, ch, cnt, shakes, if i + 1 < n then Push2(i + 1) else Await2(1))
  {
  }

  lemma FromAwait2(n: nat, c: nat, ch: Chunk, cnt: nat, shakes: nat, i: nat)
    requires 2 <= n && c < n == |ch.counts| && 0 < i < n
    ensures
      Rest(n, c, ch, cnt, shakes, Await2(i)) ==
      StageOps(n, c, ch, cnt, shakes, Await2(i))
        + Rest(n, c, ch, cnt, shakes, if i + 1 < n then Await2(i + 1) else CopyOut)
  {
    var (now, later, rest) := (StageOps(n, c, ch, cnt, shakes, Await2(i)), WaitOps2(n, c, ch.counts, cnt + 2, i + 1),
                               [ToUsers(ch.half, ch.user, ch.count)]);
    assert (now + later) + rest == now + (later + rest);
    assert [] + rest == rest;
  }

  // ---- the host code ---------------------------------------------------------------------------

  class DirectComm {
    const cardNum: nat
    const cardId: nat
    var a2acnt: nat
    var prevcnt: nat
    var stepNo: nat
    var stream: seq<Op>

    constructor (cardNum: nat, cardId: nat)
      requires cardId < cardNum
      ensures this.cardNum == cardNum && this.cardId == cardId
      ensures a2acnt == prevcnt == stepNo == 0 && stream == []
    {
      this.cardNum, this.cardId := cardNum, cardId;
      a2acnt, prevcnt, stepNo, stream := 0, 0, 0, [];
    }

    /** The handshakes that open a call. */
    method EnterCall()
      requires cardId < cardNum && 2 <= cardNum
      modifies this`prevcnt, this`stream
      ensures prevcnt == old(prevcnt) + cardNum - 1
      ensures stream == old(stream) + ShakeOps(cardNum, cardId, old(prevcnt), 1)
    {
      ghost var goal := stream + ShakeOps(cardNum, cardId, prevcnt, 1);
      var i := 1;
      while i < cardNum
        invariant 1 <= i <= cardNum && prevcnt == old(prevcnt) + i - 1
        invariant stream + ShakeOps(cardNum, cardId, old(prevcnt), i) == goal
      {
        prevcnt := prevcnt + 1;
        stream := stream + [SendFlag(Prev(cardNum, cardId), prevcnt), WaitFlag(prevcnt)];
        i := i + 1;
      }
    }

    method CardAfter(ci: nat) returns (peer: nat)
      requires cardId < cardNum && 0 < ci < cardNum
      ensures peer == Peer(cardNum, cardId, ci)
    {
      SmallMod(cardNum, cardId + ci);
      peer := (cardId + ci) % cardNum;
    }

    method Send1(half: nat, counts: seq<nat>, cntslice: nat, ghost ch: Chunk)
      requires cardId < cardNum == |counts| && 2 <= cardNum
      requires ch.half == half && ch.counts == counts && ch.slice == cntslice
      modifies this`stream
      ensures stream == old(stream) + SendOps1(cardNum, cardId, ch, 1)
    {
      ghost var goal := stream + SendOps1(cardNum, cardId, ch, 1);
      var ci := 1;
      while ci < cardNum
        invariant 1 <= ci <= cardNum && stream + SendOps1(cardNum, cardId, ch, ci) == goal
      {
        var peer := CardAfter(ci);
        var src := SliceAt(peer, cntslice);
        var dst := SliceAt(cardId, cntslice);
        stream := stream + [PushIn(half, src, peer, dst, counts[peer]), SendCnt(peer)];
        ci := ci + 1;
      }
    }

    method SliceAt(i: nat, cntslice: nat) returns (at: nat)
      ensures at == Times(i, cntslice)
    {
      TimesIs(i, cntslice);
      at := i * cntslice;
    }

    method Send2(half: nat, counts: seq<nat>, cntslice: nat, ghost ch: Chunk)
      requires cardId < cardNum == |counts| && 2 <= cardNum
      requires ch.half == half && ch.counts == counts && ch.slice == cntslice
      modifies this`stream
      ensures stream == old(stream) + SendOps2(cardNum, cardId, ch, 1)
    {
      ghost var goal := stream + SendOps2(cardNum, cardId, ch, 1);
      var at := SliceAt(cardId, cntslice);
      var ci := 1;
      while ci < cardNum
        invariant 1 <= ci <= cardNum && stream + SendOps2(cardNum, cardId, ch, ci) == goal
      {
        var peer := CardAfter(ci);
        stream := stream + [PushOut(half, at, peer, counts[cardId]), SendCnt(peer)];
        ci := ci + 1;
      }
    }

    method Wait1(counts: seq<nat>, flag: nat)
      requires cardId < cardNum == |counts| && 2 <= cardNum
      modifies this`stream
      ensures stream == old(stream) + WaitOps1(cardNum, cardId, counts, flag, 1)
    {
      ghost var goal := stream + WaitOps1(cardNum, cardId, counts, flag, 1);
      var ci := 1;
      while ci < cardNum
        invariant 1 <= ci <= cardNum && stream + WaitOps1(cardNum, cardId, counts, flag, ci) == goal
      {
        if counts[cardId] != 0 {
          var peer := CardAfter(ci);
          stream := stream + [WaitCnt(peer, flag)];
        }
        ci := ci + 1;
      }
    }

    method Wait2(counts: seq<nat>, flag: nat)
      requires cardId < cardNum == |counts| && 2 <= cardNum
      modifies this`stream
      ensures stream == old(stream) + WaitOps2(cardNum, cardId, counts, flag, 1)
    {
      ghost var goal := stream + WaitOps2(cardNum, cardId, counts, flag, 1);
      var ci := 1;
      while ci < cardNum
        invariant 1 <= ci <= cardNum && stream + WaitOps2(cardNum, cardId, counts, flag, ci) == goal
      {
        var peer := CardAfter(ci);
        if counts[peer] != 0 { stream := stream + [WaitCnt(peer, flag)]; }
        ci := ci + 1;
      }
    }

    /** The body of the loop, for the chunk of `cpyCnt` elements from element `cnt` on. */
    method OneChunk(cntslice: nat, cnt: nat, cpyCnt: nat, ghost ch: Chunk)
      requires cardId < cardNum && 2 <= cardNum
      requires ch == ChunkOf(cardNum, cntslice, ch.opens, stepNo, cnt, cpyCnt)
      modifies this`stream, this`a2acnt, this`stepNo
      ensures a2acnt == old(a2acnt) + 2 && stepNo == old(stepNo) + 1 && prevcnt == old(prevcnt)
      ensures stream == old(stream) + ChunkOps(cardNum, cardId, ch, old(a2acnt))
    {
      var half := stepNo % 2;
      var peerCpyCnts := SliceCounts(cardNum, cntslice, cpyCnt);
      assert peerCpyCnts == ch.counts;
      Scatter(half, peerCpyCnts, cntslice, cnt, cpyCnt, ch);
      Gather(half, peerCpyCnts, cntslice, cnt, cpyCnt, ch);
      stepNo := stepNo + 1;
    }

    /** The loop over the chunks of this rank, after the handshakes. */
    method AllReduceA2A(total: nat, cntslice: nat, rankId: nat, rankNum: nat)
      requires cardId < cardNum && 2 <= cardNum && rankId < rankNum && cntslice > 0
      modifies this
      ensures prevcnt == old(prevcnt) + cardNum - 1
      ensures
        var step := Times(cardNum, cntslice);
        var (first, stride) := (Times(rankId, step), Times(rankNum, step));
        && stride > 0
        && var cs := CallChunks(cardNum, cntslice, total, stride, first, true, old(stepNo));
        && a2acnt == old(a2acnt) + 2 * |cs| && stepNo == old(stepNo) + |cs| && AllOf(cardNum, cs)
        && stream == old(stream) + ShakeOps(cardNum, cardId, old(prevcnt), 1)
          + CallOps(cardNum, cardId, cs, old(a2acnt))
    {
      EnterCall();
      var stepCount := StepCount(cardNum, cntslice);
      ghost var step := Times(cardNum, cntslice);
      TimesIs(rankId, step);
      TimesIs(rankNum, step);
      TimesStep(0, rankNum, step);
      ChunkLoop(total, cntslice, stepCount, rankId * stepCount, rankNum * stepCount);
    }

    method ChunkLoop(total: nat, cntslice: nat, stepCount: nat, start: nat, stride: nat)
      requires cardId < cardNum && 2 <= cardNum && stepCount == Times(cardNum, cntslice) && stride > 0
      modifies this`stream, this`a2acnt, this`stepNo
      ensures
        var cs := CallChunks(cardNum, cntslice, total, stride, start, true, old(stepNo));
        && a2acnt == old(a2acnt) + 2 * |cs| && stepNo == old(stepNo) + |cs| && AllOf(cardNum, cs)
        && stream == old(stream) + CallOps(cardNum, cardId, cs, old(a2acnt))
    {
      var cnt := start;
      AllOfCall(cardNum, cntslice, total, stride, start, true, stepNo);
      ghost var cs := CallChunks(cardNum, cntslice, total, stride, start, true, stepNo);
      ghost var (first, goal) := (true, stream + CallOps(cardNum, cardId, cs, a2acnt));
      ghost var (cnts, steps) := (a2acnt + 2 * |cs|, stepNo + |cs|);
      while cnt < total
        invariant stride > 0 && Left(total, cntslice, stride, cnt, first, goal, cnts, steps)
        decreases total - cnt
      {
        ChunkPass(total, cntslice, stepCount, cnt, stride, first, goal, cnts, steps);
        first, cnt := false, cnt + stride;
      }
    }

    /** With the chunks from element cnt on the stream comes to `goal`, and the counters to
        `cnts` and `steps`. */
    ghost predicate Left(total: nat, cntslice: nat, stride: nat, cnt: nat, first: bool, goal: seq<Op>, cnts: nat,
        steps: nat)
      requires stride > 0
      reads this
    {
      var cs := CallChunks(cardNum, cntslice, total, stride, cnt, first, stepNo);
      && cardId < cardNum && 2 <= cardNum && AllOf(cardNum, cs)
      && stream + CallOps(cardNum, cardId, cs, a2acnt) == goal
      && a2acnt + 2 * |cs| == cnts && stepNo + |cs| == steps
    }

    method ChunkPass(total: nat, cntslice: nat, stepCount: nat, cnt: nat, stride: nat, ghost first: bool,
        ghost goal: seq<Op>, ghost cnts: nat, ghost steps: nat)
      requires stepCount == Times(cardNum, cntslice) && stride > 0 && cnt < total
      requires Left(total, cntslice, stride, cnt, first, goal, cnts, steps)
      modifies this`stream, this`a2acnt, this`stepNo
      ensures Left(total, cntslice, stride, cnt + stride, false, goal, cnts, steps)
    {
      var cpyCnt := stepCount;
      if cpyCnt + cnt > total { cpyCnt := total - cnt; }
      ghost var ch, rest := FirstChunk(cardNum, cntslice, total, stride, cnt, first, stepNo, cpyCnt);
      NextChunk(cntslice, cnt, cpyCnt, ch, rest, goal);
    }

    /** The first of the chunks that are left; `rest` are the others. */
    method NextChunk(cntslice: nat, cnt: nat, cpyCnt: nat, ghost ch: Chunk, ghost rest: seq<Chunk>, ghost goal: seq<Op>)
      requires cardId < cardNum && 2 <= cardNum && AllOf(cardNum, rest) && AllOf(cardNum, [ch] + rest)
      requires ch == ChunkOf(cardNum, cntslice, ch.opens, stepNo, cnt, cpyCnt)
      requires stream + CallOps(cardNum, cardId, [ch] + rest, a2acnt) == goal
      modifies this`stream, this`a2acnt, this`stepNo
      ensures a2acnt == old(a2acnt) + 2 && stepNo == old(stepNo) + 1
      ensures stream + CallOps(cardNum, cardId, rest, a2acnt) == goal
    {
      CallHead(cardNum, cardId, ch, rest, a2acnt);
      OneChunk(cntslice, cnt, cpyCnt, ch);
    }

    method StepCount(n: nat, cntslice: nat) returns (step: nat)
      ensures step == Times(n, cntslice)
    {
      TimesIs(n, cntslice);
      step := n * cntslice;
    }

    method Scatter(half: nat, counts: seq<nat>, cntslice: nat, cnt: nat, cpyCnt: nat, ghost ch: Chunk)
      requires cardId < cardNum == |counts| && 2 <= cardNum
      requires ch == Chunk(ch.opens, half, counts, cntslice, cnt, cpyCnt)
      modifies this`stream, this`a2acnt
      ensures a2acnt == old(a2acnt) + 1
      ensures stream == old(stream) + FirstExchange(cardNum, cardId, ch, a2acnt)
    {
      a2acnt := a2acnt + 1;
      stream := stream + [LoadIn(half, cnt, cpyCnt), SetCnt(a2acnt)];
      Send1(half, counts, cntslice, ch);
      Wait1(counts, a2acnt);
    }

    method Gather(half: nat, counts: seq<nat>, cntslice: nat, cnt: nat, cpyCnt: nat, ghost ch: Chunk)
      requires cardId < cardNum == |counts| && 2 <= cardNum
      requires ch == Chunk(ch.opens, half, counts, cntslice, cnt, cpyCnt)
      modifies this`stream, this`a2acnt
      ensures a2acnt == old(a2acnt) + 1
      ensures stream == old(stream) + SecondExchange(cardNum, cardId, ch, a2acnt)
    {
      a2acnt := a2acnt + 1;
      stream := stream + [FoldSlices(half, cntslice, cardId, counts[cardId]), SetCnt(a2acnt)];
      Send2(half, counts, cntslice, ch);
      Wait2(counts, a2acnt);
      stream := stream + [ToUsers(half, cnt, cpyCnt)];
    }
  }
}
