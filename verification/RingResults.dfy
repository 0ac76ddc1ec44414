/** What the users of the ring collectives have when the streams are executed: every byte
    of the result. */
module RingResults {
  import opened Arith
  import opened Bytes
  import opened Cycle
  import opened PowerOfTwo
  import opened Memory
  import opened Terms
  import opened RingSchedule
  import opened RingMachine
  import opened RingHost
  import opened RingBytes
  import RingCalls
  import SliceSize
  import SplitToken
  import T = RingTheorems
  import P = RingProgress

  // ---- chunks, in programs of any calls -------------------------------------------------------

  /** Byte u of every card's ranks, reduced on each card. */
  function CardSums<T>(e: Env<T>, g: nat, u: nat): (xs: seq<T>)
    requires Ok(e) && g < |e.calls| && Fits(e, g)
    ensures |xs| == e.r.n
  {
    var call := e.calls[g];
    seq(e.r.n, k requires 0 <= k < e.r.n => Local(e.plus, call.col.rankNum, call.send, k, u))
  }

  lemma {:induction false} AccKnown(r: Ring, g: nat, o: nat, k: nat, x: nat)
    requires Valid(r) && g < |r.chunks| && o < r.n && k < r.n && Inside(r.chunks[g], SlotNo(r.n, Kinds(r, g), o), x)
    ensures Known(r, Acc(r, g, o, k), x)
    decreases k
  {
    if k > 0 { AccKnown(r, g, o, k - 1, x); }
  }

  /** Byte x of the complete fold of a slot. */
  lemma FullByte<T(!new)>(e: Env<T>, g: nat, o: nat, x: nat)
    requires Ok(e) && g < |e.calls| && Fits(e, g) && o < e.r.n && Kinds(e.r, g) != AllGather
    requires Associative(e.plus) && Commutative(e.plus) && Inside(e.r.chunks[g], SlotNo(e.r.n, Kinds(e.r, g), o), x)
    ensures Known(e.r, Full(e.r, g, o), x)
    ensures
      var (ch, col, q) := (e.r.chunks[g], e.calls[g].col, SlotNo(e.r.n, Kinds(e.r, g), o));
      var at := if ch.kind == AllReduce then Times(q, ch.pitch) + x + ch.user
                else x + (Times(col.rankOf[q], col.dataSize) + ch.user);
      RingBytes.Val(e, Full(e.r, g, o), x) == Reduce(e.plus, CardSums(e, g, at))
  {
    var (ch, col, q) := (e.r.chunks[g], e.calls[g].col, SlotNo(e.r.n, Kinds(e.r, g), o));
    AccKnown(e.r, g, o, e.r.n - 1, x);
    P.FullIsReduction(e.r, g, o, e.plus, RingBytes.Inputs(e, x), e.junk);
    var at := if ch.kind == AllReduce then Times(q, ch.pitch) + x + ch.user
              else x + (Times(col.rankOf[q], col.dataSize) + ch.user);
    assert Terms.Inputs(RingBytes.Inputs(e, x), e.r.n, g, q) == CardSums(e, g, at);
  }

  /** After an AllReduce chunk every rank of the card has the sum of all ranks in each byte. */
  lemma StreamsAllReduce<T(!new)>(e: Env<T>, tr: seq<Config<T>>, c: nat, g: nat, i: nat, u: nat)
    requires Ok(e) && StreamRun(e, tr) && Associative(e.plus) && Commutative(e.plus)
    requires c < e.r.n == |tr[|tr| - 1].pc| && g < |e.calls| && g < tr[|tr| - 1].pc[c].g && Fits(e, g)
    requires Kinds(e.r, g) == AllReduce && i < e.calls[g].col.rankNum
    requires e.r.chunks[g].user <= u < e.r.chunks[g].user + e.r.chunks[g].bytes
    ensures |tr[|tr| - 1].w.recv| == e.r.n
    ensures tr[|tr| - 1].w.recv[c](e.calls[g].no, i, u) == Reduce(e.plus, CardSums(e, g, u))
  {
    var abs := Simulated(e, tr);
    var (s, w, ch) := (abs[|abs| - 1], tr[|tr| - 1].w, e.r.chunks[g]);
    T.RingDelivers(e.r, abs, c, g);
    var o := SomeSlot(ch.pitch, u - ch.user, e.r.n);
    var x := u - ch.user - Times(o, ch.pitch);
    FullByte(e, g, o, x);
    assert T.Has(s, c, (g, o), Full(e.r, g, o)) && CardShown(e, s, w, c);
    assert UserByte(e, c, s.user[c], w.recv[c], g, o, i, x);
  }

  /** After an AllGather chunk every rank of the card has what each card's rank sent. */
  lemma StreamsGather<T>(e: Env<T>, tr: seq<Config<T>>, c: nat, g: nat, o: nat, i: nat, x: nat)
    requires Ok(e) && StreamRun(e, tr)
    requires c < e.r.n == |tr[|tr| - 1].pc| && g < |e.calls| && g < tr[|tr| - 1].pc[c].g && Fits(e, g)
    requires Kinds(e.r, g) == AllGather && i < e.calls[g].col.rankNum && o < e.r.n && x < e.r.chunks[g].len
    ensures |tr[|tr| - 1].w.recv| == e.r.n
    ensures
      var (ch, call) := (e.r.chunks[g], e.calls[g]);
      tr[|tr| - 1].w.recv[c](call.no, i, ch.user + Times(call.col.rankOf[o], call.col.dataSize) + x) ==
      call.send(o, call.col.rankId, x + ch.user)
  {
    var abs := Simulated(e, tr);
    var (s, w) := (abs[|abs| - 1], tr[|tr| - 1].w);
    T.RingDelivers(e.r, abs, c, g);
    assert T.Has(s, c, (g, o), Leaf(o, g, o)) && CardShown(e, s, w, c);
    assert UserByte(e, c, s.user[c], w.recv[c], g, o, i, x);
  }

  /** After a ReduceScatter chunk the card's rank has the sum of what all ranks have for it. */
  lemma StreamsScatter<T(!new)>(e: Env<T>, tr: seq<Config<T>>, c: nat, g: nat, x: nat)
    requires Ok(e) && StreamRun(e, tr) && Associative(e.plus) && Commutative(e.plus)
    requires c < e.r.n == |tr[|tr| - 1].pc| && g < |e.calls| && g < tr[|tr| - 1].pc[c].g && Fits(e, g)
    requires Kinds(e.r, g) == ReduceScatter && x < e.r.chunks[g].len
    ensures |tr[|tr| - 1].w.recv| == e.r.n
    ensures
      var (ch, call) := (e.r.chunks[g], e.calls[g]);
      tr[|tr| - 1].w.recv[c](call.no, call.col.rankId, ch.user + x) ==
      Reduce(e.plus, CardSums(e, g, x + (Times(call.col.rankOf[c], call.col.dataSize) + ch.user)))
  {
    var abs := Simulated(e, tr);
    T.RingDelivers(e.r, abs, c, g);
    ScatteredByte(e, abs[|abs| - 1], tr[|tr| - 1].w, c, g, x);
  }

  lemma ScatteredByte<T(!new)>(e: Env<T>, s: State, w: World<T>, c: nat, g: nat, x: nat)
    requires Ok(e) && Sim(e, s, w) && Associative(e.plus) && Commutative(e.plus)
    requires c < e.r.n && g < |e.calls| && Fits(e, g) && Kinds(e.r, g) == ReduceScatter && x < e.r.chunks[g].len
    requires T.Has(s, c, (g, c), Full(e.r, g, Next(e.r.n, c)))
    ensures
      var (ch, call) := (e.r.chunks[g], e.calls[g]);
      w.recv[c](call.no, call.col.rankId, ch.user + x) ==
      Reduce(e.plus, CardSums(e, g, x + (Times(call.col.rankOf[c], call.col.dataSize) + ch.user)))
  {
    var t := Full(e.r, g, Next(e.r.n, c));
    FullByte(e, g, Next(e.r.n, c), x);
    assert CardShown(e, s, w, c);
    assert UserByte(e, c, s.user[c], w.recv[c], g, c, e.calls[g].col.rankId, x);
    assert w.recv[c](e.calls[g].no, e.calls[g].col.rankId, e.r.chunks[g].user + x) == RingBytes.Val(e, t, x);
  }

  // ---- a whole AllReduce ------------------------------------------------------------------------

  /** The i-th chunk of a call, and how many there are. */
  lemma {:induction false} ChunkAt(cut: Cut, cnt: nat, k: nat, i: nat)
    requires cut.stride > 0
    ensures
      var (cs, at) := (AllReduceChunks(cut, cnt, k), cnt + Times(i, cut.stride));
      && (i < |cs| <==> at < cut.total)
      && (i < |cs| ==>
            cs[i] == Chunk(AllReduce, k + i == 0, (k + i) % 2, cut.pitch, cut.pitch, Times(at, cut.typelen),
                           Times(if cut.chunk + at > cut.total then cut.total - at else cut.chunk, cut.typelen)))
    decreases i
  {
    if cnt < cut.total && i > 0 {
      var cs := AllReduceChunks(cut, cnt, k);
      assert cs[1..] == AllReduceChunks(cut, cnt + cut.stride, k + 1);
      ChunkAt(cut, cnt + cut.stride, k + 1, i - 1);
      assert i < |cs| ==> cs[i] == cs[1..][i - 1];
    }
  }

  /** The streams that NicAllReduce leaves for the ranks with number `rankId` of all cards. */
  function NicEnv<T>(n: nat, rankId: nat, rankNum: nat, cut: Cut, send: (nat, nat, nat) -> T, plus: (T, T) -> T,
      junk: T, nextcnt: nat, prevcnt: nat): Env<T>
    requires cut.stride > 0
  {
    var cs := AllReduceChunks(cut, rankId * cut.chunk, 0);
    var call := Call(0, Column(rankId, rankNum, cut.stride < cut.total, seq(n, _ => 0), 0), send);
    Env(Ring(n, cs, nextcnt, prevcnt), seq(|cs|, _ => call), plus, junk)
  }

  lemma TimesMono(a: nat, b: nat, n: nat)
    requires a <= b
    ensures Times(a, n) <= Times(b, n)
  {
    if a < b { TimesStep(a, b, n); }
  }

  lemma NicFits(n: nat, rankNum: nat, total: nat, stepLen: nat, typelen: nat, count: nat)
    requires 0 < typelen <= stepLen && count <= NicCut(n, rankNum, total, stepLen, typelen).chunk
    ensures Times(count, typelen) <= Times(n, NicCut(n, rankNum, total, stepLen, typelen).pitch)
  {
    var k := stepLen / typelen;
    TimesMono(count, k * n, typelen);
    TimesIs(k * n, typelen);
    TimesIs(n, k * typelen);
    Regrouped(k, n, typelen);
  }

  lemma Regrouped(a: nat, b: nat, d: nat)
    ensures a * b * d == b * (a * d)
  {
  }

  /** Chunks of a call are apart in the users' memory. */
  lemma ChunksApart(cut: Cut, first: nat, g: nat, h: nat)
    requires cut.stride > 0 && cut.stride >= cut.chunk
    requires g < h < |AllReduceChunks(cut, first, 0)|
    ensures
      var cs := AllReduceChunks(cut, first, 0);
      cs[g].user + cs[g].bytes <= cs[h].user
  {
    ChunkAt(cut, first, 0, g);
    ChunkAt(cut, first, 0, h);
    var (a, b) := (first + Times(g, cut.stride), first + Times(h, cut.stride));
    var count := if cut.chunk + a > cut.total then cut.total - a else cut.chunk;
    TimesStep(g, h, cut.stride);
    TimesAdds(a, count, cut.typelen);
    TimesMono(a + count, b, cut.typelen);
  }

  lemma NicChunkFits<T>(n: nat, rankId: nat, rankNum: nat, total: nat, stepLen: nat, typelen: nat, e: Env<T>, g: nat)
    requires 2 <= n && rankId < rankNum && 0 < typelen <= stepLen
    requires NicCut(n, rankNum, total, stepLen, typelen).stride > 0 && e.r.n == n && g < |e.r.chunks| == |e.calls|
    requires
      var cut := NicCut(n, rankNum, total, stepLen, typelen);
      e.r.chunks == AllReduceChunks(cut, rankId * cut.chunk, 0) && ColumnOk(n, e.calls[g].col)
    ensures Fits(e, g)
  {
    var cut := NicCut(n, rankNum, total, stepLen, typelen);
    var at := rankId * cut.chunk + Times(g, cut.stride);
    ChunkAt(cut, rankId * cut.chunk, 0, g);
    NicFits(n, rankNum, total, stepLen, typelen, if cut.chunk + at > total then total - at else cut.chunk);
  }

  lemma NicApart<T>(cut: Cut, first: nat, e: Env<T>, g: nat, o: nat, h: nat, q: nat)
    requires cut.stride > 0 && cut.stride >= cut.chunk && e.r.chunks == AllReduceChunks(cut, first, 0)
    requires g < |e.r.chunks| == |e.calls| && h < |e.calls| && o < |e.calls[g].col.rankOf|
      && q < |e.calls[h].col.rankOf|
    ensures Apart(e, g, o, h, q)
  {
    ChunkAt(cut, first, 0, g);
    ChunkAt(cut, first, 0, h);
    if g < h { ChunksApart(cut, first, g, h); }
    if h < g { ChunksApart(cut, first, h, g); }
  }

  lemma NicOk<T>(n: nat, rankId: nat, rankNum: nat, total: nat, stepLen: nat, typelen: nat,
      send: (nat, nat, nat) -> T, plus: (T, T) -> T, junk: T, nextcnt: nat, prevcnt: nat)
    requires 2 <= n && rankId < rankNum && 0 < typelen <= stepLen && n * stepLen <= HALF
    ensures NicCut(n, rankNum, total, stepLen, typelen).stride >= NicCut(n, rankNum, total, stepLen, typelen).chunk > 0
    ensures Ok(NicEnv(n, rankId, rankNum, NicCut(n, rankNum, total, stepLen, typelen), send, plus, junk, nextcnt,
      prevcnt))
  {
    var cut := NicCut(n, rankNum, total, stepLen, typelen);
    SliceCount(stepLen, typelen, n);
    MulStep(0, rankNum, cut.chunk);
    RingCalls.CutExtends(Ring(n, [], nextcnt, prevcnt), stepLen, total, typelen, rankId, rankNum);
    var e := NicEnv(n, rankId, rankNum, cut, send, plus, junk, nextcnt, prevcnt);
    assert [] + e.r.chunks == e.r.chunks;
    forall g | 0 <= g < |e.calls| ensures Fits(e, g) {
      NicChunkFits(n, rankId, rankNum, total, stepLen, typelen, e, g);
    }
    forall g: nat, o: nat, h: nat, q: nat | g < |e.calls| && h < |e.calls| && o < n && q < n
      ensures Apart(e, g, o, h, q)
    {
      NicApart(cut, rankId * cut.chunk, e, g, o, h, q);
    }
  }

  /** Element x of a call is in some chunk of the ranks with some number. */
  lemma SomeChunk(cut: Cut, rankNum: nat, x: nat) returns (q: nat, g: nat, first: nat)
    requires rankNum > 0 && cut.chunk > 0 && cut.stride == rankNum * cut.chunk > 0 && x < cut.total
    ensures q < rankNum && first == q * cut.chunk && g < |AllReduceChunks(cut, first, 0)|
    ensures
      var at := first + Times(g, cut.stride);
      at <= x < at + if cut.chunk + at > cut.total then cut.total - at else cut.chunk
  {
    q, g := SplitToken.ChunksPartition(rankNum, cut.chunk, cut.total, x);
    first := q * cut.chunk;
    StartOf(g, rankNum, q, cut.chunk);
    ChunkAt(cut, first, 0, g);
  }

  lemma StartOf(g: nat, rankNum: nat, q: nat, chunk: nat)
    ensures Times(Times(g, rankNum) + q, chunk) == q * chunk + Times(g, rankNum * chunk)
  {
    TimesIs(g, rankNum);
    TimesIs(g * rankNum + q, chunk);
    TimesIs(g, rankNum * chunk);
    assert (g * rankNum + q) * chunk == g * (rankNum * chunk) + q * chunk;
  }

  /** Byte u of an element between a and b. */
  lemma ByteOf(u: nat, typelen: nat, at: nat, count: nat)
    requires typelen > 0 && at <= u / typelen < at + count
    ensures Times(at, typelen) <= u < Times(at, typelen) + Times(count, typelen)
  {
    var x := u / typelen;
    assert u == x * typelen + u % typelen;
    TimesIs(x, typelen);
    TimesMono(at, x, typelen);
    TimesStep(x, at + count, typelen);
    TimesAdds(at, count, typelen);
  }

  /** All ranks' values of byte u, reduced on every card. */
  function Sums<T>(n: nat, rankNum: nat, send: (nat, nat, nat) -> T, plus: (T, T) -> T, u: nat): (xs: seq<T>)
    requires rankNum > 0
    ensures |xs| == n
  {
    seq(n, k requires 0 <= k < n => Local(plus, rankNum, send, k, u))
  }

  /** When card c has executed its stream, rank i of the card has the sum in byte u. */
  ghost predicate Summed<T>(e: Env<T>, rankNum: nat, send: (nat, nat, nat) -> T,
      tr: seq<Config<T>>, c: nat, i: nat, u: nat)
    requires Ok(e) && rankNum > 0
  {
    StreamRun(e, tr) && c < |tr[|tr| - 1].pc| && tr[|tr| - 1].pc[c].g == |e.r.chunks| ==>
      && |tr[|tr| - 1].w.recv| == e.r.n > 0 && c < e.r.n
      && tr[|tr| - 1].w.recv[c](0, i, u) == Reduce(e.plus, Sums(e.r.n, rankNum, send, e.plus, u))
  }

  lemma SomeonesByte(cut: Cut, rankNum: nat, u: nat) returns (q: nat, g: nat, first: nat)
    requires rankNum > 0 && cut.chunk > 0 && cut.stride == rankNum * cut.chunk > 0
    requires cut.typelen > 0 && u < cut.total * cut.typelen
    ensures q < rankNum && first == q * cut.chunk && g < |AllReduceChunks(cut, first, 0)|
    ensures
      var ch := AllReduceChunks(cut, first, 0)[g];
      ch.kind == AllReduce && ch.user <= u < ch.user + ch.bytes
  {
    InTotal(u, cut.total, cut.typelen);
    q, g, first := SomeChunk(cut, rankNum, u / cut.typelen);
    ChunkHolds(cut, first, g, u);
  }

  lemma ChunkHolds(cut: Cut, first: nat, g: nat, u: nat)
    requires cut.stride > 0 && cut.typelen > 0 && g < |AllReduceChunks(cut, first, 0)|
    requires
      var at := first + Times(g, cut.stride);
      at <= u / cut.typelen < at + if cut.chunk + at > cut.total then cut.total - at else cut.chunk
    ensures
      var ch := AllReduceChunks(cut, first, 0)[g];
      ch.kind == AllReduce && ch.user <= u < ch.user + ch.bytes
  {
    var at := first + Times(g, cut.stride);
    ChunkAt(cut, first, 0, g);
    ByteOf(u, cut.typelen, at, if cut.chunk + at > cut.total then cut.total - at else cut.chunk);
  }

  lemma CutDelivers<T(!new)>(n: nat, rankNum: nat, total: nat, stepLen: nat, typelen: nat, send: (nat, nat, nat) -> T,
      plus: (T, T) -> T, junk: T, nextcnt: nat, prevcnt: nat, c: nat, i: nat, u: nat) returns (q: nat)
    requires 2 <= n && n * stepLen <= HALF && rankNum > 0 && 0 < typelen <= stepLen && u < total * typelen
    requires Associative(plus) && Commutative(plus) && c < n && i < rankNum
    ensures q < rankNum
    ensures
      var cut := NicCut(n, rankNum, total, stepLen, typelen);
      && cut.stride > 0
      && var e := NicEnv(n, q, rankNum, cut, send, plus, junk, nextcnt, prevcnt);
         Ok(e) && forall tr :: Summed(e, rankNum, send, tr, c, i, u)
  {
    var cut := NicCut(n, rankNum, total, stepLen, typelen);
    NicOk(n, 0, rankNum, total, stepLen, typelen, send, plus, junk, nextcnt, prevcnt);
    var g, first;
    q, g, first := SomeonesByte(cut, rankNum, u);
    NicOk(n, q, rankNum, total, stepLen, typelen, send, plus, junk, nextcnt, prevcnt);
    var e := NicEnv(n, q, rankNum, cut, send, plus, junk, nextcnt, prevcnt);
    forall tr ensures Summed(e, rankNum, send, tr, c, i, u) { SummedIn(e, rankNum, send, tr, c, g, i, u); }
  }

  /** AllReduce, as the host issues it with its own slice length, on every card count that the
      slices fit: every byte of every rank's receive buffer is the reduction of that byte over
      all ranks of all cards, in whatever order the cards execute their streams.  The byte is
      written by the ranks with number q of the cards. */
  lemma NicAllReduceDelivers<T(!new)>(n: nat, rankNum: nat, total: nat, dataSize: nat, typelen: nat,
      send: (nat, nat, nat) -> T, plus: (T, T) -> T, junk: T, nextcnt: nat, prevcnt: nat, c: nat, i: nat, u: nat)
      returns (q: nat)
    requires 2 <= n && SliceSize.Listed(n) && 0 < rankNum <= 4 && 0 < typelen <= 8 && u < total * typelen
    requires Associative(plus) && Commutative(plus) && c < n && i < rankNum
    ensures q < rankNum && n * rankNum > 0
    ensures
      var cut := NicCut(n, rankNum, total, SliceSize.NicStepLen(dataSize, n * rankNum, rankNum), typelen);
      && cut.stride > 0
      && var e := NicEnv(n, q, rankNum, cut, send, plus, junk, nextcnt, prevcnt);
         Ok(e) && forall tr :: Summed(e, rankNum, send, tr, c, i, u)
  {
    SliceSize.ListedFits(dataSize, n, rankNum);
    SliceSize.SliceHoldsElements(dataSize, n, rankNum);
    q := CutDelivers(n, rankNum, total, SliceSize.NicStepLen(dataSize, n * rankNum, rankNum), typelen, send, plus, junk,
                     nextcnt, prevcnt, c, i, u);
  }

  lemma InTotal(u: nat, total: nat, typelen: nat)
    requires typelen > 0 && u < total * typelen
    ensures u / typelen < total
  {
    assert total * typelen == typelen * total;
    DivBelow(u, typelen, total);
  }

  lemma SummedIn<T(!new)>(e: Env<T>, rankNum: nat, send: (nat, nat, nat) -> T, tr: seq<Config<T>>, c: nat, g: nat,
      i: nat, u: nat)
    requires Ok(e) && Associative(e.plus) && Commutative(e.plus) && c < e.r.n && g < |e.calls| && i < rankNum
    requires Kinds(e.r, g) == AllReduce && e.r.chunks[g].user <= u < e.r.chunks[g].user + e.r.chunks[g].bytes
    requires e.calls[g].no == 0 && e.calls[g].send == send && e.calls[g].col.rankNum == rankNum
    ensures Summed(e, rankNum, send, tr, c, i, u)
  {
    assert Fits(e, g);
    if StreamRun(e, tr) && c < |tr[|tr| - 1].pc| && tr[|tr| - 1].pc[c].g == |e.r.chunks| {
      var abs := Simulated(e, tr);
      StreamsAllReduce(e, tr, c, g, i, u);
      assert CardSums(e, g, u) == Sums(e.r.n, rankNum, send, e.plus, u);
    }
  }

  // ---- a whole AllGather or ReduceScatter ----------------------------------------------------------

  lemma {:induction false} StepAt(kind: Kind, size: nat, slice: nat, from: nat, k: nat, steps: nat, i: nat)
    requires k <= steps
    ensures |SliceChunks(kind, size, slice, from, k, steps)| == steps - k
    ensures
      var (cs, len) := (SliceChunks(kind, size, slice, from, k, steps), StepLen(size, slice, k + i));
      k + i < steps ==> cs[i] == Chunk(kind, k + i == 0, (from + k + i) % 2, slice, len, Times(k + i, slice), len)
    decreases steps - k
  {
    if k < steps {
      var cs := SliceChunks(kind, size, slice, from, k, steps);
      assert cs[1..] == SliceChunks(kind, size, slice, from, k + 1, steps);
      StepAt(kind, size, slice, from, k + 1, steps, if i > 0 then i - 1 else 0);
      if 0 < i < |cs| { assert cs[i] == cs[1..][i - 1]; }
    }
  }

  function StepLen(size: nat, slice: nat, k: nat): nat {
    if Times(k + 1, slice) < size then slice else Minus(size, Times(k, slice))
  }

  /** The streams that SlicedCollective leaves for the ranks `rankOf`, one on each card. */
  function SlicedEnv<T>(n: nat, kind: Kind, dataSize: nat, slice: nat, stepNo: nat, plan: Plan,
      send: (nat, nat, nat) -> T, plus: (T, T) -> T, junk: T, nextcnt: nat, prevcnt: nat): Env<T>
    requires slice > 0
  {
    var steps := StepCount(dataSize, slice);
    var cs := SliceChunks(kind, dataSize, slice, stepNo, 0, steps);
    var call := Call(0, Column(plan.rankId, plan.rankNum, steps > 1, plan.rankOf, dataSize), send);
    Env(Ring(n, cs, nextcnt, prevcnt), seq(|cs|, _ => call), plus, junk)
  }

  /** Different cards have different ranks. */
  ghost predicate PlanOk(n: nat, plan: Plan) {
    plan.rankId < plan.rankNum && |plan.rankOf| == n &&
    forall a, b :: 0 <= a < b < n ==> plan.rankOf[a] != plan.rankOf[b]
  }

  lemma StepsApart(dataSize: nat, slice: nat, g: nat, h: nat)
    requires g < h && Times(h, slice) < dataSize
    ensures Times(g, slice) + StepLen(dataSize, slice, g) <= Times(h, slice)
    ensures Times(h, slice) + StepLen(dataSize, slice, h) <= dataSize
  {
    TimesStep(g, h, slice);
  }

  lemma SlicedApart<T>(n: nat, e: Env<T>, kind: Kind, dataSize: nat, slice: nat, stepNo: nat, plan: Plan,
      g: nat, o: nat, h: nat, q: nat)
    requires slice > 0 && PlanOk(n, plan) && kind != AllReduce && o < n && q < n
    requires g < |e.r.chunks| == |e.calls| && h < |e.calls|
    requires e.r.chunks == SliceChunks(kind, dataSize, slice, stepNo, 0, StepCount(dataSize, slice))
    requires forall k :: 0 <= k < |e.calls| ==>
                           e.calls[k].col.rankOf == plan.rankOf && e.calls[k].col.dataSize == dataSize
    ensures Apart(e, g, o, h, q)
  {
    var steps := StepCount(dataSize, slice);
    StepAt(kind, dataSize, slice, stepNo, 0, steps, g);
    StepAt(kind, dataSize, slice, stepNo, 0, steps, h);
    StepInside(dataSize, slice, g);
    StepInside(dataSize, slice, h);
    if g < h { StepsApart(dataSize, slice, g, h); }
    if h < g { StepsApart(dataSize, slice, h, g); }
    if kind == AllGather && o != q {
      var (a, b) := (plan.rankOf[o], plan.rankOf[q]);
      if a < b { TimesStep(a, b, dataSize); } else { TimesStep(b, a, dataSize); }
    }
  }

  lemma SlicedOk<T>(n: nat, kind: Kind, dataSize: nat, slice: nat, stepNo: nat, plan: Plan, e: Env<T>)
    requires 2 <= n && slice > 0 && n * slice <= HALF && PlanOk(n, plan) && kind != AllReduce && e.r.n == n
    requires |e.calls| == |e.r.chunks|
      && e.r.chunks == SliceChunks(kind, dataSize, slice, stepNo, 0, StepCount(dataSize, slice))
    requires forall k :: 0 <= k < |e.calls| ==>
      ColumnOk(n, e.calls[k].col) && e.calls[k].col.rankOf == plan.rankOf && e.calls[k].col.dataSize == dataSize
    ensures Ok(e)
  {
    RingCalls.SlicesExtend(Ring(n, [], e.r.nextcnt, e.r.prevcnt), kind, dataSize, slice, stepNo);
    assert [] + e.r.chunks == e.r.chunks;
    forall g | 0 <= g < |e.calls| ensures Fits(e, g) {
      StepAt(kind, dataSize, slice, stepNo, 0, StepCount(dataSize, slice), g);
    }
    forall g: nat, o: nat, h: nat, q: nat | g < |e.calls| && h < |e.calls| && o < n && q < n
      ensures Apart(e, g, o, h, q)
    {
      SlicedApart(n, e, kind, dataSize, slice, stepNo, plan, g, o, h, q);
    }
  }

  /** The step that carries byte x of a block. */
  lemma StepOf(dataSize: nat, slice: nat, x: nat) returns (g: nat)
    requires slice > 0 && x < dataSize
    ensures g < StepCount(dataSize, slice) && Times(g, slice) <= x < Times(g, slice) + StepLen(dataSize, slice, g)
  {
    var steps := StepCount(dataSize, slice);
    assert dataSize <= Times(steps, slice) by {
      TimesIs(steps, slice);
      assert dataSize + slice - 1 == steps * slice + (dataSize + slice - 1) % slice;
    }
    g := SomeSlot(slice, x, steps);
  }

  /** What rank i of card c has of card o's block when card c has executed its stream. */
  ghost predicate Gathered<T>(e: Env<T>, plan: Plan, dataSize: nat, send: (nat, nat, nat) -> T, tr: seq<Config<T>>,
      c: nat, i: nat, o: nat, x: nat)
    requires Ok(e) && o < |plan.rankOf|
  {
    StreamRun(e, tr) && c < |tr[|tr| - 1].pc| && tr[|tr| - 1].pc[c].g == |e.r.chunks| ==>
      && c < |tr[|tr| - 1].w.recv|
      && tr[|tr| - 1].w.recv[c](0, i, Times(plan.rankOf[o], dataSize) + x) == send(o, plan.rankId, x)
  }

  /** AllGather with the slice that lastPowerOfTwo bounds: rank i of every card has byte x of
      what the rank of the column on card o sent, at that rank's place. */
  lemma AllGatherDelivers<T>(n: nat, dataSize: nat, stepNo: nat, plan: Plan, send: (nat, nat, nat) -> T,
      plus: (T, T) -> T, junk: T, nextcnt: nat, prevcnt: nat, c: nat, i: nat, o: nat, x: nat)
    requires 2 <= n <= HALF && PlanOk(n, plan) && c < n && o < n && i < plan.rankNum && x < dataSize
    ensures SliceSize.CollectiveSlice(n) > 0
    ensures
      var e := SlicedEnv(n, AllGather, dataSize, SliceSize.CollectiveSlice(n), stepNo, plan, send, plus, junk,
                         nextcnt, prevcnt);
      Ok(e) && forall tr :: Gathered(e, plan, dataSize, send, tr, c, i, o, x)
  {
    SliceSize.CollectiveSliceFits(n);
    var slice := SliceSize.CollectiveSlice(n);
    var e := SlicedEnv(n, AllGather, dataSize, slice, stepNo, plan, send, plus, junk, nextcnt, prevcnt);
    SlicedOk(n, AllGather, dataSize, slice, stepNo, plan, e);
    var g := StepOf(dataSize, slice, x);
    StepAt(AllGather, dataSize, slice, stepNo, 0, StepCount(dataSize, slice), g);
    forall tr ensures Gathered(e, plan, dataSize, send, tr, c, i, o, x) {
      GatheredIn(e, plan, dataSize, send, tr, c, g, i, o, x);
    }
  }

  lemma GatheredIn<T>(e: Env<T>, plan: Plan, dataSize: nat, send: (nat, nat, nat) -> T, tr: seq<Config<T>>,
      c: nat, g: nat, i: nat, o: nat, x: nat)
    requires Ok(e) && c < e.r.n && g < |e.calls| && o < e.r.n == |plan.rankOf| && Kinds(e.r, g) == AllGather
    requires e.r.chunks[g].user <= x < e.r.chunks[g].user + e.r.chunks[g].len
    requires
      var call := e.calls[g];
      && call.no == 0 && call.send == send && call.col.rankOf == plan.rankOf && call.col.rankId == plan.rankId
      && call.col.dataSize == dataSize && i < call.col.rankNum
    ensures Gathered(e, plan, dataSize, send, tr, c, i, o, x)
  {
    assert Fits(e, g);
    if StreamRun(e, tr) && c < |tr[|tr| - 1].pc| && tr[|tr| - 1].pc[c].g == |e.r.chunks| {
      var abs := Simulated(e, tr);
      StreamsGather(e, tr, c, g, o, i, x - e.r.chunks[g].user);
    }
  }

  /** What the column's rank on card c has when the card has executed its stream. */
  ghost predicate Scattered<T>(e: Env<T>, plan: Plan, dataSize: nat, send: (nat, nat, nat) -> T, tr: seq<Config<T>>,
      c: nat, x: nat)
    requires Ok(e) && c < |plan.rankOf| && plan.rankNum > 0
  {
    StreamRun(e, tr) && c < |tr[|tr| - 1].pc| && tr[|tr| - 1].pc[c].g == |e.r.chunks| ==>
      && |tr[|tr| - 1].w.recv| == e.r.n > c
      && tr[|tr| - 1].w.recv[c](0, plan.rankId, x) ==
         Reduce(e.plus, Sums(e.r.n, plan.rankNum, send, e.plus, Times(plan.rankOf[c], dataSize) + x))
  }

  /** ReduceScatter: the column's rank on card c has, of its own block, the sum over all ranks. */
  lemma ReduceScatterDelivers<T(!new)>(n: nat, dataSize: nat, stepNo: nat, plan: Plan, send: (nat, nat, nat) -> T,
      plus: (T, T) -> T, junk: T, nextcnt: nat, prevcnt: nat, c: nat, x: nat)
    requires 2 <= n <= HALF && PlanOk(n, plan) && c < n && x < dataSize && Associative(plus) && Commutative(plus)
    ensures SliceSize.CollectiveSlice(n) > 0
    ensures
      var e := SlicedEnv(n, ReduceScatter, dataSize, SliceSize.CollectiveSlice(n), stepNo, plan, send, plus, junk,
                         nextcnt, prevcnt);
      Ok(e) && forall tr :: Scattered(e, plan, dataSize, send, tr, c, x)
  {
    SliceSize.CollectiveSliceFits(n);
    var slice := SliceSize.CollectiveSlice(n);
    var e := SlicedEnv(n, ReduceScatter, dataSize, slice, stepNo, plan, send, plus, junk, nextcnt, prevcnt);
    SlicedOk(n, ReduceScatter, dataSize, slice, stepNo, plan, e);
    var g := StepOf(dataSize, slice, x);
    StepAt(ReduceScatter, dataSize, slice, stepNo, 0, StepCount(dataSize, slice), g);
    forall tr ensures Scattered(e, plan, dataSize, send, tr, c, x) {
      ScatteredIn(e, plan, dataSize, send, tr, c, g, x);
    }
  }

  lemma ScatteredIn<T(!new)>(e: Env<T>, plan: Plan, dataSize: nat, send: (nat, nat, nat) -> T, tr: seq<Config<T>>,
      c: nat, g: nat, x: nat)
    requires Ok(e) && c < e.r.n == |plan.rankOf| && g < |e.calls| && Kinds(e.r, g) == ReduceScatter
    requires Associative(e.plus) && Commutative(e.plus)
    requires e.r.chunks[g].user <= x < e.r.chunks[g].user + e.r.chunks[g].len
    requires
      var call := e.calls[g];
      && call.no == 0 && call.send == send && call.col.rankOf == plan.rankOf && call.col.rankId == plan.rankId
      && call.col.dataSize == dataSize && call.col.rankNum == plan.rankNum > 0
    ensures Scattered(e, plan, dataSize, send, tr, c, x)
  {
    assert Fits(e, g);
    if StreamRun(e, tr) && c < |tr[|tr| - 1].pc| && tr[|tr| - 1].pc[c].g == |e.r.chunks| {
      var abs := Simulated(e, tr);
      var y := x - e.r.chunks[g].user;
      StreamsScatter(e, tr, c, g, y);
      var at := Times(plan.rankOf[c], dataSize) + x;
      assert y + (Times(plan.rankOf[c], dataSize) + e.r.chunks[g].user) == at;
      assert CardSums(e, g, at) == Sums(e.r.n, plan.rankNum, send, e.plus, at);
    }
  }
}
