/** The graphs of the halving-doubling AllReduce, executed on the bytes of the small buffers.

    The rounds are synchronous.  In a round every card executes its three nodes of the
    round, which read what was there before the round; after a halving round the resident
    kernel reduces what arrived onto the card's own block, as far as the card keeps it. */
module HalvingBytes {
  import opened Arith
  import opened Bytes
  import opened Hypercube
  import opened Memory
  import opened Terms
  import opened HalvingDoubling
  import Doubling
  import TwoSlots

  /** One node: a push reads the buffers as they were before the round. */
  function Exec(before: seq<nat -> Term>, now: seq<nat -> Term>, c: nat, op: Op): (after: seq<nat -> Term>)
    requires c < |before| == |now|
    ensures |after| == |now|
  {
    match op
    case P2p(src, to, dst) =>
      if to < |now| then now[to := Copied(now[to], dst.off, dst.len, before[c], src.off)] else now
    case _ => now
  }

  function ExecAll(before: seq<nat -> Term>, now: seq<nat -> Term>, c: nat, ops: seq<Op>): (after: seq<nat -> Term>)
    requires c < |before| == |now|
    ensures |after| == |now|
    decreases |ops|
  {
    if ops == [] then now else ExecAll(before, Exec(before, now, c, ops[0]), c, ops[1..])
  }

  /** The nodes of step j in the graph of a card. */
  function StepOps(nodes: seq<Op>, j: nat): seq<Op> {
    if 3 * j + 3 <= |nodes| then nodes[3 * j..3 * j + 3] else []
  }

  /** The buffers when cards 0 .. k-1 have executed step j. */
  function Pushed(before: seq<nat -> Term>, nodes: seq<seq<Op>>, j: nat, k: nat): (after: seq<nat -> Term>)
    requires k <= |nodes| == |before|
    ensures |after| == |before|
  {
    if k == 0 then before else ExecAll(before, Pushed(before, nodes, j, k - 1), k - 1, StepOps(nodes[k - 1], j))
  }

  /** Where the block of card b begins. */
  function BlockAt(size: nat, half: nat, b: nat): nat {
    half + Times(b, size)
  }

  /** What card c keeps of its own block after halving round i. */
  function Kept(size: nat, c: nat, i: nat): Region {
    Region(Offset(size, c, i + 1), Trans(size, i))
  }

  /** The kernel on card c after halving round i. */
  function Kernel(size: nat, half: nat, c: nat, i: nat, m: nat -> Term): nat -> Term {
    var (own, peer, kept) := (BlockAt(size, half, c), BlockAt(size, half, Flip(c, i)), Kept(size, c, i));
    (y: nat) => if own + kept.off <= y < own + kept.off + kept.len then Node(m(y), m(y - own + peer)) else m(y)
  }

  /** All buffers after step j: lg halving steps, then lg doubling steps. */
  function Step(size: nat, lg: nat, half: nat, nodes: seq<seq<Op>>, before: seq<nat -> Term>, j: nat):
      (after: seq<nat -> Term>)
    requires |nodes| == |before|
    ensures |after| == |before|
  {
    var now := Pushed(before, nodes, j, |nodes|);
    if j < lg then seq(|now|, c requires 0 <= c < |now| => Kernel(size, half, c, j, now[c])) else now
  }

  function Steps(size: nat, lg: nat, half: nat, nodes: seq<seq<Op>>, start: seq<nat -> Term>, j: nat):
      (after: seq<nat -> Term>)
    requires |nodes| == |start|
    ensures |after| == |start|
  {
    if j == 0 then start else Step(size, lg, half, nodes, Steps(size, lg, half, nodes, start, j - 1), j - 1)
  }

  // ---- the graphs that the host builds ---------------------------------------------------------

  /** What SmallSizeBFMut puts into the graph of card c. */
  function Graph(size: nat, lg: nat, half: nat, cnt: nat, c: nat): seq<Op> {
    Halving(size, c, half, cnt, lg) + DoublingOps(size, lg, c, half, cnt, 0)
  }

  function Graphs(size: nat, lg: nat, half: nat, cnt: nat): (nodes: seq<seq<Op>>)
    ensures |nodes| == Pow2(lg) && forall c :: 0 <= c < |nodes| ==> nodes[c] == Graph(size, lg, half, cnt, c)
  {
    seq(Pow2(lg), c requires 0 <= c < Pow2(lg) => Graph(size, lg, half, cnt, c))
  }

  lemma {:induction false} HalvingAt(size: nat, c: nat, half: nat, cnt: nat, i: nat, j: nat)
    ensures |Halving(size, c, half, cnt, i)| == 3 * i
    ensures j < i ==> StepOps(Halving(size, c, half, cnt, i), j) == HalveOps(size, c, half, cnt, j)
    decreases i
  {
    if i > 0 {
      HalvingAt(size, c, half, cnt, i - 1, j);
      var (head, last) := (Halving(size, c, half, cnt, i - 1), HalveOps(size, c, half, cnt, i - 1));
      if j < i - 1 { assert (head + last)[3 * j..3 * j + 3] == head[3 * j..3 * j + 3]; }
      if j == i - 1 { assert (head + last)[3 * j..3 * j + 3] == last; }
    }
  }

  lemma {:induction false} DoublingAt(size: nat, lg: nat, c: nat, half: nat, cnt: nat, i: nat, j: nat)
    requires i <= lg
    ensures |DoublingOps(size, lg, c, half, cnt, i)| == 3 * (lg - i)
    ensures j < lg - i ==>
      StepOps(DoublingOps(size, lg, c, half, cnt, i), j) == DoubleOps(size, lg, c, half, cnt, lg - 1 - j)
    decreases lg - i
  {
    if i < lg {
      DoublingAt(size, lg, c, half, cnt, i + 1, j);
      var (head, last) := (DoublingOps(size, lg, c, half, cnt, i + 1), DoubleOps(size, lg, c, half, cnt, i));
      if j < lg - i - 1 { assert (head + last)[3 * j..3 * j + 3] == head[3 * j..3 * j + 3]; }
      if j == lg - i - 1 { assert (head + last)[3 * j..3 * j + 3] == last; }
    }
  }

  /** The nodes of each step. */
  lemma GraphAt(size: nat, lg: nat, half: nat, cnt: nat, c: nat, j: nat)
    requires j < 2 * lg
    ensures StepOps(Graph(size, lg, half, cnt, c), j) ==
            if j < lg then HalveOps(size, c, half, cnt, j) else DoubleOps(size, lg, c, half, cnt, 2 * lg - 1 - j)
  {
    var (a, b) := (Halving(size, c, half, cnt, lg), DoublingOps(size, lg, c, half, cnt, 0));
    HalvingAt(size, c, half, cnt, lg, j);
    DoublingAt(size, lg, c, half, cnt, 0, if j < lg then 0 else j - lg);
    if j < lg {
      assert (a + b)[3 * j..3 * j + 3] == a[3 * j..3 * j + 3];
    } else {
      assert (a + b)[3 * j..3 * j + 3] == b[3 * (j - lg)..3 * (j - lg) + 3];
    }
  }

  // ---- one step ---------------------------------------------------------------------------------

  /** The push among the nodes of a step. */
  predicate IsPush(ops: seq<Op>, src: Region, to: nat, dst: Region) {
    |ops| == 3 && ops[0].WaitFlag? && ops[1] == P2p(src, to, dst) && ops[2].P2pFlag?
  }

  lemma ExecPush(before: seq<nat -> Term>, now: seq<nat -> Term>, c: nat, ops: seq<Op>, src: Region, to: nat,
      dst: Region)
    requires c < |before| == |now| && IsPush(ops, src, to, dst) && to < |now|
    ensures ExecAll(before, now, c, ops) == now[to := Copied(now[to], dst.off, dst.len, before[c], src.off)]
  {
    assert ops == [ops[0], ops[1], ops[2]];
    assert ops[1..] == [ops[1], ops[2]] && ops[1..][1..] == [ops[2]];
    var after := now[to := Copied(now[to], dst.off, dst.len, before[c], src.off)];
    assert ExecAll(before, after, c, [ops[2]]) == after;
    assert ExecAll(before, now, c, ops[1..]) == after;
  }

  /** The dimension of step j. */
  function DimOf(lg: nat, j: nat): nat {
    if j < lg then j else if j < 2 * lg then 2 * lg - 1 - j else 0
  }

  function Src(size: nat, lg: nat, half: nat, c: nat, j: nat): Region
    requires j < 2 * lg
  {
    Shift(if j < lg then HalvingDoubling.Sent(size, c, j) else SentBack(size, lg, c, 2 * lg - 1 - j),
          BlockAt(size, half, c))
  }

  function Dst(size: nat, lg: nat, half: nat, c: nat, j: nat): Region
    requires j < 2 * lg
  {
    if j < lg then Src(size, lg, half, c, j)
    else Shift(SentBack(size, lg, c, 2 * lg - 1 - j), BlockAt(size, half, Flip(c, 2 * lg - 1 - j)))
  }

  /** Who pushes what where in a step. */
  datatype Pushes = Pushes(src: seq<Region>, to: seq<nat>, dst: seq<Region>)

  ghost predicate ArePushes(nodes: seq<seq<Op>>, j: nat, ps: Pushes) {
    && |ps.src| == |ps.to| == |ps.dst| == |nodes|
    && forall c :: 0 <= c < |nodes| ==>
         ps.to[c] < |nodes| && IsPush(StepOps(nodes[c], j), ps.src[c], ps.to[c], ps.dst[c])
  }

  /** A card to which only card p pushes. */
  lemma {:induction false} OnePusher(before: seq<nat -> Term>, nodes: seq<seq<Op>>, j: nat, k: nat, ps: Pushes, d: nat,
      p: nat)
    requires k <= |nodes| == |before| && d < |nodes| && p < |nodes| && ArePushes(nodes, j, ps)
    requires forall c :: 0 <= c < |nodes| ==> (ps.to[c] == d <==> c == p)
    ensures Pushed(before, nodes, j, k)[d] ==
            if p < k then Copied(before[d], ps.dst[p].off, ps.dst[p].len, before[p], ps.src[p].off) else before[d]
    decreases k
  {
    if k > 0 {
      OnePusher(before, nodes, j, k - 1, ps, d, p);
      ExecPush(before, Pushed(before, nodes, j, k - 1), k - 1, StepOps(nodes[k - 1], j), ps.src[k - 1], ps.to[k - 1],
               ps.dst[k - 1]);
    }
  }

  function StepPushes(size: nat, lg: nat, half: nat, j: nat): Pushes
    requires j < 2 * lg
  {
    var n := Pow2(lg);
    Pushes(seq(n, c requires 0 <= c < n => Src(size, lg, half, c, j)),
           seq(n, c requires 0 <= c < n => Flip(c, DimOf(lg, j))),
           seq(n, c requires 0 <= c < n => Dst(size, lg, half, c, j)))
  }

  lemma StepsArePushes(size: nat, lg: nat, half: nat, cnt: nat, j: nat)
    requires j < 2 * lg
    ensures ArePushes(Graphs(size, lg, half, cnt), j, StepPushes(size, lg, half, j))
  {
    var (nodes, ps) := (Graphs(size, lg, half, cnt), StepPushes(size, lg, half, j));
    forall c | 0 <= c < |nodes|
      ensures ps.to[c] < |nodes| && IsPush(StepOps(nodes[c], j), ps.src[c], ps.to[c], ps.dst[c])
    {
      FlipInRange(c, DimOf(lg, j), lg);
      GraphAt(size, lg, half, cnt, c, j);
    }
  }

  /** Only its peer pushes to a card in a step. */
  lemma PushedIs(size: nat, lg: nat, half: nat, cnt: nat, before: seq<nat -> Term>, j: nat, d: nat, i: nat, p: nat,
      src: Region, dst: Region)
    requires j < 2 * lg && |before| == Pow2(lg) && d < Pow2(lg) && i == DimOf(lg, j) && p == Flip(d, i)
    requires src == Src(size, lg, half, p, j) && dst == Dst(size, lg, half, p, j)
    ensures p < Pow2(lg)
    ensures Pushed(before, Graphs(size, lg, half, cnt), j, Pow2(lg))[d] ==
            Copied(before[d], dst.off, dst.len, before[p], src.off)
  {
    var ps := StepPushes(size, lg, half, j);
    FlipInRange(d, i, lg);
    StepsArePushes(size, lg, half, cnt, j);
    forall c | 0 <= c < Pow2(lg) ensures ps.to[c] == d <==> c == p { PeerOnly(c, d, i); }
    OnePusher(before, Graphs(size, lg, half, cnt), j, Pow2(lg), ps, d, p);
  }

  lemma PeerOnly(c: nat, d: nat, i: nat)
    ensures Flip(c, i) == d <==> c == Flip(d, i)
  {
    FlipBack(c, i);
    FlipBack(d, i);
  }

  // ---- what every byte becomes -------------------------------------------------------------------

  /** Segments stay inside the block. */
  lemma {:induction false} OffsetBound(size: nat, c: nat, i: nat)
    ensures Offset(size, c, i) + 2 * Trans(size, i) <= size
    decreases i
  {
    if i > 0 { OffsetBound(size, c, i - 1); }
  }

  lemma BlocksApart(size: nat, half: nat, a: nat, b: nat, x: nat, y: nat)
    requires a != b && x < size && y < size
    ensures BlockAt(size, half, a) + x != BlockAt(size, half, b) + y
  {
    if a < b { TimesStep(a, b, size); } else { TimesStep(b, a, size); }
  }

  /** Byte x of card c's own block after i halving rounds. */
  ghost predicate IsHalved(size: nat, half: nat, bufs: seq<nat -> Term>, i: nat, c: nat, x: nat) {
    c < |bufs| && x < size ==> bufs[c](BlockAt(size, half, c) + x) == Halved(size, c, x, i)
  }

  /** The same after doubling rounds lg-1 down to i. */
  ghost predicate IsRestored(size: nat, lg: nat, half: nat, bufs: seq<nat -> Term>, i: nat, c: nat, x: nat)
    requires i <= lg
  {
    c < |bufs| && x < size ==> bufs[c](BlockAt(size, half, c) + x) == Restored(size, lg, c, x, i)
  }

  ghost predicate AllHalved(size: nat, half: nat, bufs: seq<nat -> Term>, i: nat) {
    forall c: nat, x: nat :: IsHalved(size, half, bufs, i, c, x)
  }

  ghost predicate AllRestored(size: nat, lg: nat, half: nat, bufs: seq<nat -> Term>, i: nat)
    requires i <= lg
  {
    forall c: nat, x: nat :: IsRestored(size, lg, half, bufs, i, c, x)
  }

  lemma HalvingStep(size: nat, lg: nat, half: nat, cnt: nat, before: seq<nat -> Term>, i: nat)
    requires i < lg && |before| == Pow2(lg) && AllHalved(size, half, before, i)
    ensures AllHalved(size, half, Step(size, lg, half, Graphs(size, lg, half, cnt), before, i), i + 1)
  {
    var nodes := Graphs(size, lg, half, cnt);
    var (now, after, next) := (Pushed(before, nodes, i, Pow2(lg)), Step(size, lg, half, nodes, before, i), i + 1);
    forall c: nat, x: nat ensures IsHalved(size, half, after, next, c, x) {
      if c < Pow2(lg) && x < size {
        var p := Flip(c, i);
        PushedIs(size, lg, half, cnt, before, i, c, i, p, Src(size, lg, half, p, i), Dst(size, lg, half, p, i));
        HalvedByte(size, lg, half, before, now[c], i, c, x);
      }
    }
  }

  /** A push of a halving round, and the kernel after it. */
  lemma HalvedByte(size: nat, lg: nat, half: nat, before: seq<nat -> Term>, m: nat -> Term, i: nat, c: nat, x: nat)
    requires i < lg && |before| == Pow2(lg) && c < Pow2(lg) && x < size && AllHalved(size, half, before, i)
    requires Flip(c, i) < Pow2(lg)
    requires
      var at := Src(size, lg, half, Flip(c, i), i);
      m == Copied(before[c], at.off, at.len, before[Flip(c, i)], at.off)
    ensures Kernel(size, half, c, i, m)(BlockAt(size, half, c) + x) == Halved(size, c, x, i + 1)
  {
    var p := Flip(c, i);
    PeerOffset(size, c, i);
    OffsetBound(size, p, i);
    FlipBack(c, i);
    assert IsHalved(size, half, before, i, c, x) && IsHalved(size, half, before, i, p, x);
    OwnUntouched(size, lg, half, before, m, i, c, x);
  }

  /** The peer's push of a halving round goes into the peer's block. */
  lemma OwnUntouched(size: nat, lg: nat, half: nat, before: seq<nat -> Term>, m: nat -> Term, i: nat, c: nat, x: nat)
    requires i < lg && |before| == Pow2(lg) && c < Pow2(lg) && x < size
    requires
      var p := Flip(c, i);
      && p < Pow2(lg) && p != c && Offset(size, p, i) + 2 * Trans(size, i) <= size
      && var at := Src(size, lg, half, p, i);
         m == Copied(before[c], at.off, at.len, before[p], at.off)
    ensures m(BlockAt(size, half, c) + x) == before[c](BlockAt(size, half, c) + x)
    ensures In(x, HalvingDoubling.Sent(size, Flip(c, i), i)) ==>
      m(BlockAt(size, half, Flip(c, i)) + x) == before[Flip(c, i)](BlockAt(size, half, Flip(c, i)) + x)
  {
    var p := Flip(c, i);
    var y := BlockAt(size, half, c) + x;
    var at := Src(size, lg, half, p, i);
    if at.off <= y < at.off + at.len { BlocksApart(size, half, c, p, x, y - BlockAt(size, half, p)); }
  }

  lemma DoublingStep(size: nat, lg: nat, half: nat, cnt: nat, before: seq<nat -> Term>, i: nat)
    requires i < lg && |before| == Pow2(lg) && AllRestored(size, lg, half, before, i + 1)
    ensures AllRestored(size, lg, half, Step(size, lg, half, Graphs(size, lg, half, cnt), before, 2 * lg - 1 - i), i)
  {
    var j := 2 * lg - 1 - i;
    var after := Step(size, lg, half, Graphs(size, lg, half, cnt), before, j);
    forall c: nat, x: nat ensures IsRestored(size, lg, half, after, i, c, x) {
      if c < Pow2(lg) && x < size { RestoredNext(size, lg, half, cnt, before, i, c, x); }
    }
  }

  lemma RestoredNext(size: nat, lg: nat, half: nat, cnt: nat, before: seq<nat -> Term>, i: nat, c: nat, x: nat)
    requires i < lg && |before| == Pow2(lg) && c < Pow2(lg) && x < size && AllRestored(size, lg, half, before, i + 1)
    ensures Step(size, lg, half, Graphs(size, lg, half, cnt), before, 2 * lg - 1 - i)[c](BlockAt(size, half, c) + x) ==
            Restored(size, lg, c, x, i)
  {
    var (p, r) := (Flip(c, i), SentBack(size, lg, Flip(c, i), i));
    var (src, dst) := (Region(BlockAt(size, half, p) + r.off, r.len), Region(BlockAt(size, half, c) + r.off, r.len));
    BackPush(size, lg, half, cnt, before, i, 2 * lg - 1 - i, c, p, src, dst, r);
    StepIsPushed(size, lg, half, Graphs(size, lg, half, cnt), before, 2 * lg - 1 - i);
    RestoredByte(size, lg, half, before, c, p, r, src, dst, i, x);
  }

  lemma BackPush(size: nat, lg: nat, half: nat, cnt: nat, before: seq<nat -> Term>, i: nat, j: nat, c: nat, p: nat,
      src: Region, dst: Region, r: Region)
    requires i < lg && j == 2 * lg - 1 - i && |before| == Pow2(lg) && c < Pow2(lg)
    requires p == Flip(c, i) && r == SentBack(size, lg, p, i)
    requires src == Region(BlockAt(size, half, p) + r.off, r.len)
      && dst == Region(BlockAt(size, half, c) + r.off, r.len)
    ensures p < Pow2(lg)
    ensures Pushed(before, Graphs(size, lg, half, cnt), j, Pow2(lg))[c] ==
            Copied(before[c], dst.off, dst.len, before[p], src.off)
  {
    BackRanges(size, lg, half, p, c, i, j, r);
    PushedIs(size, lg, half, cnt, before, j, c, i, p, src, dst);
  }

  lemma StepIsPushed(size: nat, lg: nat, half: nat, nodes: seq<seq<Op>>, before: seq<nat -> Term>, j: nat)
    requires |nodes| == |before| && lg <= j
    ensures Step(size, lg, half, nodes, before, j) == Pushed(before, nodes, j, |nodes|)
  {
  }

  /** What the peer p of card c sends in doubling round i, which is step j. */
  lemma BackRanges(size: nat, lg: nat, half: nat, p: nat, c: nat, i: nat, j: nat, r: Region)
    requires i < lg && j == 2 * lg - 1 - i && p == Flip(c, i) && r == SentBack(size, lg, p, i)
    ensures DimOf(lg, j) == i
    ensures Src(size, lg, half, p, j) == Region(BlockAt(size, half, p) + r.off, r.len)
    ensures Dst(size, lg, half, p, j) == Region(BlockAt(size, half, c) + r.off, r.len)
  {
    FlipBack(c, i);
    assert 2 * lg - 1 - j == i;
  }

  /** A push of a doubling round goes into the card's own block. */
  lemma RestoredByte(size: nat, lg: nat, half: nat, before: seq<nat -> Term>, c: nat, p: nat, r: Region, src: Region,
      dst: Region, i: nat, x: nat)
    requires i < lg && |before| == Pow2(lg) && c < Pow2(lg) && x < size && AllRestored(size, lg, half, before, i + 1)
    requires p == Flip(c, i) < Pow2(lg) && r == SentBack(size, lg, p, i)
    requires src == Region(BlockAt(size, half, p) + r.off, r.len)
      && dst == Region(BlockAt(size, half, c) + r.off, r.len)
    ensures Copied(before[c], dst.off, dst.len, before[p], src.off)(BlockAt(size, half, c) + x) ==
            Restored(size, lg, c, x, i)
  {
    assert IsRestored(size, lg, half, before, i + 1, c, x) && IsRestored(size, lg, half, before, i + 1, p, x);
  }

  // ---- whole graphs --------------------------------------------------------------------------------

  /** Before the graphs every card's own block holds what its ranks contribute. */
  ghost predicate Starts(size: nat, lg: nat, half: nat, bufs: seq<nat -> Term>) {
    |bufs| == Pow2(lg) && forall c: nat, x: nat :: StartsWith(size, half, bufs, c, x)
  }

  ghost predicate StartsWith(size: nat, half: nat, bufs: seq<nat -> Term>, c: nat, x: nat) {
    c < |bufs| && x < size ==> bufs[c](BlockAt(size, half, c) + x) == Leaf(c, x, 0)
  }

  lemma {:induction false} AfterHalving(size: nat, lg: nat, half: nat, cnt: nat, start: seq<nat -> Term>, i: nat)
    requires i <= lg && Starts(size, lg, half, start)
    ensures AllHalved(size, half, Steps(size, lg, half, Graphs(size, lg, half, cnt), start, i), i)
    decreases i
  {
    if i == 0 {
      forall c: nat, x: nat ensures IsHalved(size, half, start, 0, c, x) { assert StartsWith(size, half, start, c, x); }
    } else {
      AfterHalving(size, lg, half, cnt, start, i - 1);
      HalvingStep(size, lg, half, cnt, Steps(size, lg, half, Graphs(size, lg, half, cnt), start, i - 1), i - 1);
    }
  }

  lemma {:induction false} AfterDoubling(size: nat, lg: nat, half: nat, cnt: nat, start: seq<nat -> Term>, i: nat)
    requires i <= lg && Starts(size, lg, half, start)
    ensures AllRestored(size, lg, half, Steps(size, lg, half, Graphs(size, lg, half, cnt), start, 2 * lg - i), i)
    decreases lg - i
  {
    var nodes := Graphs(size, lg, half, cnt);
    var after := Steps(size, lg, half, nodes, start, 2 * lg - i);
    if i == lg {
      AfterHalving(size, lg, half, cnt, start, lg);
      forall c: nat, x: nat ensures IsRestored(size, lg, half, after, lg, c, x) {
        assert IsHalved(size, half, after, lg, c, x);
      }
    } else {
      AfterDoubling(size, lg, half, cnt, start, i + 1);
      DoublingStep(size, lg, half, cnt, Steps(size, lg, half, nodes, start, 2 * lg - 1 - i), i);
    }
  }

  /** The buffers when all graphs have been executed. */
  function Final(size: nat, lg: nat, half: nat, cnt: nat, start: seq<nat -> Term>): (bufs: seq<nat -> Term>)
    requires |start| == Pow2(lg)
    ensures |bufs| == Pow2(lg)
  {
    Steps(size, lg, half, Graphs(size, lg, half, cnt), start, 2 * lg)
  }

  ghost predicate Reduced(size: nat, lg: nat, half: nat, bufs: seq<nat -> Term>, c: nat, x: nat) {
    c < |bufs| && x < size ==> bufs[c](BlockAt(size, half, c) + x) == Wanted(size, lg, x)
  }

  /** When the graphs that the host builds are executed, every card's own block has every byte
      reduced over all cards, and the same on all cards, exactly when twice the number of cards
      divides the size. */
  lemma GraphsExact(size: nat, lg: nat, half: nat, cnt: nat, start: seq<nat -> Term>)
    requires lg >= 1 && Starts(size, lg, half, start)
    ensures (forall c: nat, x: nat :: Reduced(size, lg, half, Final(size, lg, half, cnt, start), c, x)) <==>
            Divides(size, lg)
  {
    var final := Final(size, lg, half, cnt, start);
    AfterDoubling(size, lg, half, cnt, start, 0);
    ExactlyWhenDivides(size, lg);
    forall c: nat, x: nat | c < Pow2(lg) && x < size
      ensures Reduced(size, lg, half, final, c, x) <==> Restored(size, lg, c, x, 0) == Wanted(size, lg, x)
    {
      assert IsRestored(size, lg, half, final, 0, c, x);
    }
    if forall c: nat, x: nat :: Reduced(size, lg, half, final, c, x) {
      forall c: nat, x: nat | c < Pow2(lg) && x < size ensures Restored(size, lg, c, x, 0) == Wanted(size, lg, x) {
        assert Reduced(size, lg, half, final, c, x);
      }
    }
  }

  // ---- the flags of a step -------------------------------------------------------------------------

  /** One node, on the flags of all cards; the kernel has set cntflag[i] to first + i + 1. */
  function ExecFlag(flags: seq<seq<nat>>, first: nat, op: Op): (after: seq<seq<nat>>)
    ensures |after| == |flags| && forall d :: 0 <= d < |flags| ==> |after[d]| == |flags[d]|
  {
    match op
    case P2pFlag(step, to, slot) =>
      if to >= |flags| || slot >= |flags[to]| then flags
      else flags[to := TwoSlots.SetFlag(flags[to], slot, first + step + 1)]
    case _ => flags
  }

  /** The wait is for what the kernel sets. */
  predicate Passes(first: nat, op: Op) {
    op.WaitFlag? ==> op.value == first + op.step + 1
  }

  function ExecFlags(flags: seq<seq<nat>>, first: nat, ops: seq<Op>): (after: seq<seq<nat>>)
    ensures |after| == |flags| && forall d :: 0 <= d < |flags| ==> |after[d]| == |flags[d]|
    decreases |ops|
  {
    if ops == [] then flags else ExecFlags(ExecFlag(flags, first, ops[0]), first, ops[1..])
  }

  /** The flags when cards 0 .. k-1 have executed step j. */
  function FlagsAfter(flags: seq<seq<nat>>, first: nat, nodes: seq<seq<Op>>, j: nat, k: nat): (after: seq<seq<nat>>)
    requires k <= |nodes|
    ensures |after| == |flags| && forall d :: 0 <= d < |flags| ==> |after[d]| == |flags[d]|
  {
    if k == 0 then flags else ExecFlags(FlagsAfter(flags, first, nodes, j, k - 1), first, StepOps(nodes[k - 1], j))
  }

  lemma ExecOneFlag(flags: seq<seq<nat>>, first: nat, ops: seq<Op>)
    requires |ops| == 3 && ops[0].WaitFlag? && ops[1].P2p?
    ensures ExecFlags(flags, first, ops) == ExecFlag(flags, first, ops[2])
  {
    assert ops == [ops[0], ops[1], ops[2]];
    assert ops[1..] == [ops[1], ops[2]] && ops[1..][1..] == [ops[2]];
    assert ExecFlags(flags, first, [ops[2]]) == ExecFlag(flags, first, ops[2]);
    assert ExecFlags(flags, first, ops[1..]) == ExecFlag(flags, first, ops[2]);
  }

  /** The nodes of card c in step j. */
  lemma FlagNodes(size: nat, lg: nat, half: nat, cnt: nat, c: nat, j: nat)
    requires j < 2 * lg
    ensures
      var ops := StepOps(Graph(size, lg, half, cnt, c), j);
      && |ops| == 3 && ops[0] == WaitFlag(j, cnt + j + 1) && ops[1].P2p?
      && ops[2] == P2pFlag(j, Flip(c, DimOf(lg, j)), (cnt + j + 1) % Doubling.DEV_NUM)
  {
    GraphAt(size, lg, half, cnt, c, j);
  }

  /** All cards push their flag of step j into slot q. */
  ghost predicate AreFlags(nodes: seq<seq<Op>>, j: nat, to: seq<nat>, q: nat) {
    |to| == |nodes| && forall c :: 0 <= c < |nodes| ==> IsFlag(StepOps(nodes[c], j), j, to[c], q)
  }

  predicate IsFlag(ops: seq<Op>, j: nat, to: nat, q: nat) {
    |ops| == 3 && ops[0].WaitFlag? && ops[1].P2p? && ops[2] == P2pFlag(j, to, q)
  }

  /** Card p pushes its flag to card d. */
  lemma {:induction false} OneFlag(flags: seq<seq<nat>>, first: nat, nodes: seq<seq<Op>>, j: nat, k: nat, to: seq<nat>,
      q: nat, d: nat, p: nat)
    requires k <= |nodes| && d < |flags| && q < |flags[d]| && AreFlags(nodes, j, to, q) && p < |nodes| && to[p] == d
    ensures p < k ==> FlagsAfter(flags, first, nodes, j, k)[d][q] == first + j + 1
    decreases k
  {
    if k > 0 {
      OneFlag(flags, first, nodes, j, k - 1, to, q, d, p);
      ExecOneFlag(FlagsAfter(flags, first, nodes, j, k - 1), first, StepOps(nodes[k - 1], j));
    }
  }

  lemma GraphFlags(size: nat, lg: nat, half: nat, cnt: nat, j: nat) returns (to: seq<nat>)
    requires j < 2 * lg
    ensures |to| == Pow2(lg) && forall c :: 0 <= c < |to| ==> to[c] == Flip(c, DimOf(lg, j))
    ensures AreFlags(Graphs(size, lg, half, cnt), j, to, (cnt + j + 1) % Doubling.DEV_NUM)
  {
    var nodes := Graphs(size, lg, half, cnt);
    to := seq(Pow2(lg), c requires 0 <= c < Pow2(lg) => Flip(c, DimOf(lg, j)));
    forall c | 0 <= c < |nodes|
      ensures IsFlag(StepOps(nodes[c], j), j, to[c], (cnt + j + 1) % Doubling.DEV_NUM)
    {
      FlagNodes(size, lg, half, cnt, c, j);
    }
  }

  /** In every step each card waits for the flag that its kernel sets for the step. */
  lemma WaitsPass(size: nat, lg: nat, half: nat, cnt: nat, c: nat, j: nat, t: nat)
    requires j < 2 * lg && t < |StepOps(Graph(size, lg, half, cnt, c), j)|
    ensures Passes(cnt, StepOps(Graph(size, lg, half, cnt, c), j)[t])
  {
    FlagNodes(size, lg, half, cnt, c, j);
  }

  /** And it gets that flag of its peer, in the slot of the flag. */
  lemma FlagsArrive(size: nat, lg: nat, half: nat, cnt: nat, flags: seq<seq<nat>>, j: nat, c: nat)
    requires j < 2 * lg && c < Pow2(lg) == |flags| && |flags[c]| == Doubling.DEV_NUM
    ensures
      var after := FlagsAfter(flags, cnt, Graphs(size, lg, half, cnt), j, Pow2(lg));
      after[c][(cnt + j + 1) % Doubling.DEV_NUM] == cnt + j + 1
  {
    FlipInRange(c, DimOf(lg, j), lg);
    FlipBack(c, DimOf(lg, j));
    var to := GraphFlags(size, lg, half, cnt, j);
    OneFlag(flags, cnt, Graphs(size, lg, half, cnt), j, Pow2(lg), to, (cnt + j + 1) % Doubling.DEV_NUM, c,
            Flip(c, DimOf(lg, j)));
  }
}
