/** The chunks that the host code cuts are valid chunks of the ring: whatever sizes it picks
    itself, a call extends any ring program that is free of races to one that is. */
module RingCalls {
  import opened Arith
  import opened PowerOfTwo
  import opened RingSchedule
  import opened RingHost
  import opened SliceSize

  /** Chunks of one call: they fit, only the first opens it, halves alternate. */
  ghost predicate CallOk(n: nat, cs: seq<Chunk>) {
    && (forall i :: 0 <= i < |cs| ==> ValidChunk(n, cs[i]))
    && (forall i :: 0 < i < |cs| ==> !cs[i].opens && cs[i].half != cs[i - 1].half)
  }

  lemma {:induction false} AllReduceChunksOk(n: nat, cut: Cut, cnt: nat, k: nat)
    requires cut.stride > 0 && cut.pitch > 0 && Times(n, cut.pitch) <= HALF
    ensures
      var cs := AllReduceChunks(cut, cnt, k);
      CallOk(n, cs) && (cs != [] ==> cs[0].opens == (k == 0) && cs[0].half == k % 2)
    decreases cut.total - cnt
  {
    if cnt < cut.total {
      AllReduceChunksOk(n, cut, cnt + cut.stride, k + 1);
      NextChunk(cut, cnt, k);
      var cs := AllReduceChunks(cut, cnt, k);
      assert cs == [cs[0]] + cs[1..];
      PutBefore(n, cs[0], cs[1..]);
    }
  }

  lemma {:induction false} SliceChunksOk(n: nat, kind: Kind, size: nat, slice: nat, stepNo: nat, k: nat, steps: nat)
    requires slice > 0 && steps == (size + slice - 1) / slice && k <= steps && Times(n, slice) <= HALF
    ensures
      var cs := SliceChunks(kind, size, slice, stepNo, k, steps);
      CallOk(n, cs) && (cs != [] ==> cs[0].opens == (k == 0) && cs[0].half == (stepNo + k) % 2)
    decreases steps - k
  {
    if k < steps {
      StepInside(size, slice, k);
      SliceChunksOk(n, kind, size, slice, stepNo, k + 1, steps);
      var cs := SliceChunks(kind, size, slice, stepNo, k, steps);
      var rest := SliceChunks(kind, size, slice, stepNo, k + 1, steps);
      assert cs == [cs[0]] + rest;
      PutBefore(n, cs[0], rest);
    }
  }

  lemma PutBefore(n: nat, ch: Chunk, rest: seq<Chunk>)
    requires ValidChunk(n, ch) && CallOk(n, rest) && (rest != [] ==> !rest[0].opens && rest[0].half != ch.half)
    ensures CallOk(n, [ch] + rest)
  {
    var cs := [ch] + rest;
    forall i | 0 < i < |cs| ensures !cs[i].opens && cs[i].half != cs[i - 1].half && ValidChunk(n, cs[i]) {
      assert cs[i] == rest[i - 1];
      if i > 1 { assert cs[i - 1] == rest[i - 2]; }
    }
  }

  /** A ring may issue calls one after the other: the chunks stay valid. */
  lemma AppendCall(r: Ring, cs: seq<Chunk>)
    requires Valid(r) && CallOk(r.n, cs) && (cs != [] ==> cs[0].opens)
    ensures Valid(r.(chunks := r.chunks + cs))
  {
    var r' := r.(chunks := r.chunks + cs);
    forall g | 0 <= g < |r'.chunks|
      ensures ValidChunk(r'.n, r'.chunks[g])
      ensures g > 0 ==> r'.chunks[g].opens || r'.chunks[g].half != r'.chunks[g - 1].half
    {
      if g >= |r.chunks| {
        assert r'.chunks[g] == cs[g - |r.chunks|];
      } else {
        assert r'.chunks[g] == r.chunks[g];
      }
    }
  }

  /** An AllReduce after the handshake, on a card count that fits. */
  lemma NicCallExtends(r: Ring, dataSize: nat, total: nat, typelen: nat, rankId: nat, rankNum: nat)
    requires Valid(r) && Listed(r.n) && rankId < rankNum <= 4 && 0 < typelen <= 8
    ensures
      && r.n * rankNum > 0
      && var stepLen := NicStepLen(dataSize, r.n * rankNum, rankNum);
      && typelen <= stepLen
      && var cut := NicCut(r.n, rankNum, total, stepLen, typelen);
      cut.stride > 0 && Valid(r.(chunks := r.chunks + AllReduceChunks(cut, rankId * cut.chunk, 0)))
  {
    Positive(r.n, rankNum);
    ListedFits(dataSize, r.n, rankNum);
    SliceHoldsElements(dataSize, r.n, rankNum);
    CutExtends(r, NicStepLen(dataSize, r.n * rankNum, rankNum), total, typelen, rankId, rankNum);
  }

  lemma CutExtends(r: Ring, stepLen: nat, total: nat, typelen: nat, rankId: nat, rankNum: nat)
    requires Valid(r) && rankId < rankNum && 0 < typelen <= stepLen && r.n * stepLen <= HALF
    ensures
      var cut := NicCut(r.n, rankNum, total, stepLen, typelen);
      cut.stride > 0 && Valid(r.(chunks := r.chunks + AllReduceChunks(cut, rankId * cut.chunk, 0)))
  {
    var cut := NicCut(r.n, rankNum, total, stepLen, typelen);
    SliceCount(stepLen, typelen, r.n);
    Positive(rankNum, cut.chunk);
    PitchFits(stepLen, typelen);
    Scale(r.n, cut.pitch, stepLen);
    TimesIs(r.n, cut.pitch);
    AllReduceChunksOk(r.n, cut, rankId * cut.chunk, 0);
    AppendCall(r, AllReduceChunks(cut, rankId * cut.chunk, 0));
  }

  lemma PitchFits(stepLen: nat, typelen: nat)
    requires 0 < typelen <= stepLen
    ensures 0 < stepLen / typelen * typelen <= stepLen
  {
    var k := stepLen / typelen;
    assert stepLen == k * typelen + stepLen % typelen;
    DivAtLeast(stepLen, typelen, 1);
    Positive(k, typelen);
  }

  /** An AllGather or a ReduceScatter after the handshake, on any number of cards that leaves
      each a byte of the half buffer. */
  lemma SlicedCallExtends(r: Ring, kind: Kind, dataSize: nat, stepNo: nat)
    requires Valid(r) && r.n <= HALF
    ensures
      var slice := CollectiveSlice(r.n);
      slice > 0 && Valid(Sliced(r, kind, dataSize, slice, stepNo))
  {
    CollectiveSliceFits(r.n);
    SlicesExtend(r, kind, dataSize, CollectiveSlice(r.n), stepNo);
  }

  /** The ring's program and then one call of AllGather or ReduceScatter. */
  function Sliced(r: Ring, kind: Kind, dataSize: nat, slice: nat, stepNo: nat): Ring
    requires slice > 0
  {
    r.(chunks := r.chunks + SliceChunks(kind, dataSize, slice, stepNo, 0, StepCount(dataSize, slice)))
  }

  lemma SlicesExtend(r: Ring, kind: Kind, dataSize: nat, slice: nat, stepNo: nat)
    requires Valid(r) && slice > 0 && r.n * slice <= HALF
    ensures Valid(Sliced(r, kind, dataSize, slice, stepNo))
  {
    var steps := StepCount(dataSize, slice);
    TimesIs(r.n, slice);
    SliceChunksOk(r.n, kind, dataSize, slice, stepNo, 0, steps);
    AppendCall(r, SliceChunks(kind, dataSize, slice, stepNo, 0, steps));
  }
}
