/** The streams of Broadcast, executed operation by operation on bytes: whatever the
    interleaving, every byte of the root's data reaches every user at its place. */
module BroadcastBytes {
  import opened Arith
  import opened Bytes
  import opened Cycle
  import opened Memory
  import opened Terms
  import opened BroadcastChain
  import opened BroadcastMachine
  import opened BroadcastTheorems

  /** A chain, and the root's data by call and byte. */
  datatype Env<!T> = Env(p: Chain, send: (nat, nat) -> T)

  /** Flags, cross buffers, and what the users of every card have received. */
  datatype World<T> = World(data: seq<nat>, ready: seq<nat>, ack: seq<seq<nat>>, inb: seq<nat -> T>, out: seq<nat -> T>,
    recv: seq<(nat, nat, nat) -> T>)

  predicate Sized<T>(n: nat, w: World<T>) {
    && |w.data| == |w.ready| == |w.ack| == |w.inb| == |w.out| == |w.recv| == n
    && forall c :: 0 <= c < n ==> |w.ack[c]| == ACK_FLAGS
  }

  // ---- what an operation does --------------------------------------------------------------

  function BufferOf<T>(w: World<T>, c: nat, src: Src): nat -> T
    requires c < |w.inb| && c < |w.out|
  {
    if src == InBuff then w.inb[c] else w.out[c]
  }

  /** Card c executes one operation of call g, whose card has `ranks` users. */
  function Exec<T>(n: nat, w: World<T>, c: nat, g: nat, ranks: nat, send: (nat, nat) -> T, op: Op): (w': World<T>)
    requires Sized(n, w) && c < n
    ensures Sized(n, w')
  {
    match op
    case SendFlag(no, to, v) =>
      if to >= n then w
      else if no == 0 then w.(data := w.data[to := v])
      else if no == 1 then w.(ready := w.ready[to := v])
      else if AckNo(no) then w.(ack := w.ack[to := SetFlag(w.ack[to], no - BCAST_FLAG_START_NO, v)])
      else w
    case LoadIn(user, at) => w.(inb := w.inb[c := Copied(w.inb[c], at.off, at.len, (u: nat) => send(g, u), user)])
    case PushData(src, at, to) =>
      if to >= n then w else w.(out := w.out[to := Copied(w.out[to], at.off, at.len, BufferOf(w, c, src), at.off)])
    case ToUsers(src, at, user) =>
      w.(recv := w.recv[c := Given(w.recv[c], g, 0, ranks, user, at.len, BufferOf(w, c, src), at.off)])
    case _ => w
  }

  predicate Passes<T>(n: nat, w: World<T>, c: nat, op: Op)
    requires Sized(n, w) && c < n
  {
    match op
    case WaitGeq(no, v) => (if no == 0 then w.data[c] else w.ready[c]) >= v
    case WaitEq(no, v) => AckNo(no) && w.ack[c][no - BCAST_FLAG_START_NO] == v
    case _ => true
  }

  // ---- what blocks stand for ----------------------------------------------------------------

  /** `v` is byte x of a block; of junk nothing is known. */
  predicate Holds<T(==)>(e: Env<T>, t: Term, x: nat, v: T) {
    t.Leaf? && t.chunk < |e.p.calls| ==> v == e.send(t.chunk, Off(e.p.calls[t.chunk], t.slot) + x)
  }

  ghost predicate ByteShown<T>(e: Env<T>, t: Term, b: nat -> T, k: Region, x: nat) {
    x < k.len ==> Holds(e, t, x, b(k.off + x))
  }

  /** A buffer holds the bytes of the blocks that are intact in the machine's buffer. */
  ghost predicate Shown<T>(e: Env<T>, m: Mem, b: nat -> T) {
    forall k: Region, x: nat :: k in m ==> ByteShown(e, m[k], b, k, x)
  }

  lemma PutShown<T>(e: Env<T>, m: Mem, b: nat -> T, at: Region, t: Term, b': nat -> T)
    requires Shown(e, m, b) && Wrote(b, b', at) && forall x: nat :: ByteShown(e, t, b', at, x)
    ensures Shown(e, Put(m, at, t), b')
  {
    forall k: Region, x: nat | k in Put(m, at, t) ensures ByteShown(e, Put(m, at, t)[k], b', k, x) {
      if k != at { assert ByteShown(e, m[k], b, k, x); }
    }
  }

  lemma GetShown<T>(e: Env<T>, m: Mem, b: nat -> T, at: Region, x: nat)
    requires Shown(e, m, b)
    ensures ByteShown(e, Get(m, at), b, at, x)
  {
    if at in m { assert ByteShown(e, m[at], b, at, x); }
  }

  /** A user of the card has byte x of chunk j of call h in its place. */
  ghost predicate UserByte<T>(e: Env<T>, user: map<(nat, nat), Term>, recv: (nat, nat, nat) -> T, h: nat, j: nat,
      i: nat, x: nat)
  {
    (h, j) in user && h < |e.p.calls| && i < e.p.calls[h].rankNum && x < Len(e.p.calls[h], j) ==>
      Holds(e, user[(h, j)], x, recv(h, i, Off(e.p.calls[h], j) + x))
  }

  ghost predicate UserShown<T>(e: Env<T>, user: map<(nat, nat), Term>, recv: (nat, nat, nat) -> T) {
    forall h: nat, j: nat, i: nat, x: nat :: UserByte(e, user, recv, h, j, i, x)
  }

  ghost predicate CardShown<T>(e: Env<T>, s: State, w: World<T>, c: nat)
    requires Shape(e.p, s) && Sized(e.p.n, w) && c < e.p.n
  {
    Shown(e, s.inb[c], w.inb[c]) && Shown(e, s.out[c], w.out[c]) && UserShown(e, s.user[c], w.recv[c])
  }

  ghost predicate Sim<T>(e: Env<T>, s: State, w: World<T>) {
    && Shape(e.p, s) && Sized(e.p.n, w) && s.data == w.data && s.ready == w.ready && s.ack == w.ack
    && forall c :: 0 <= c < e.p.n ==> CardShown(e, s, w, c)
  }

  // ---- stage by stage ---------------------------------------------------------------------------

  function Run1<T>(e: Env<T>, pc: Pc, w: World<T>, c: nat): (w': World<T>)
    requires Valid(e.p) && Sized(e.p.n, w) && c < e.p.n && pc.g < |e.p.calls|
    ensures Sized(e.p.n, w')
  {
    Exec(e.p.n, w, c, pc.g, e.p.calls[pc.g].rankNum, e.send, OpAt(e.p, pc, c))
  }

  /** One buffer changes in one range, and everything else stays. */
  lemma OutSim<T>(e: Env<T>, s: State, w: World<T>, s': State, w': World<T>, d: nat, at: Region, t: Term)
    requires Sim(e, s, w) && Shape(e.p, s') && Sized(e.p.n, w') && d < e.p.n
    requires s'.data == w'.data && s'.ready == w'.ready && s'.ack == w'.ack
    requires s'.out == s.out[d := Put(s.out[d], at, t)] && w'.out == w.out[d := w'.out[d]]
    requires s'.inb == s.inb && s'.user == s.user && w'.inb == w.inb && w'.recv == w.recv
    requires Wrote(w.out[d], w'.out[d], at) && forall x: nat :: ByteShown(e, t, w'.out[d], at, x)
    ensures Sim(e, s', w')
  {
    forall c | 0 <= c < e.p.n ensures CardShown(e, s', w', c) {
      assert CardShown(e, s, w, c);
      if c == d { PutShown(e, s.out[d], w.out[d], at, t, w'.out[d]); }
    }
  }

  lemma InSim<T>(e: Env<T>, s: State, w: World<T>, s': State, w': World<T>, d: nat, at: Region, t: Term)
    requires Sim(e, s, w) && Shape(e.p, s') && Sized(e.p.n, w') && d < e.p.n
    requires s'.data == w'.data && s'.ready == w'.ready && s'.ack == w'.ack
    requires s'.inb == s.inb[d := Put(s.inb[d], at, t)] && w'.inb == w.inb[d := w'.inb[d]]
    requires s'.out == s.out && s'.user == s.user && w'.out == w.out && w'.recv == w.recv
    requires Wrote(w.inb[d], w'.inb[d], at) && forall x: nat :: ByteShown(e, t, w'.inb[d], at, x)
    ensures Sim(e, s', w')
  {
    forall c | 0 <= c < e.p.n ensures CardShown(e, s', w', c) {
      assert CardShown(e, s, w, c);
      if c == d { PutShown(e, s.inb[d], w.inb[d], at, t, w'.inb[d]); }
    }
  }

  lemma UserSim<T>(e: Env<T>, s: State, w: World<T>, s': State, w': World<T>, d: nat)
    requires Sim(e, s, w) && Shape(e.p, s') && Sized(e.p.n, w') && d < e.p.n
    requires s'.data == w'.data && s'.ready == w'.ready && s'.ack == w'.ack
    requires s'.user == s.user[d := s'.user[d]] && w'.recv == w.recv[d := w'.recv[d]]
    requires UserShown(e, s'.user[d], w'.recv[d])
    requires s'.inb == s.inb && s'.out == s.out && w'.inb == w.inb && w'.out == w.out
    ensures Sim(e, s', w')
  {
    forall c | 0 <= c < e.p.n ensures CardShown(e, s', w', c) { assert CardShown(e, s, w, c); }
  }

  lemma SameSim<T>(e: Env<T>, s: State, w: World<T>, s': State, w': World<T>)
    requires Sim(e, s, w) && Shape(e.p, s') && Sized(e.p.n, w')
    requires s'.data == w'.data && s'.ready == w'.ready && s'.ack == w'.ack
    requires s'.inb == s.inb && s'.out == s.out && s'.user == s.user
    requires w'.inb == w.inb && w'.out == w.out && w'.recv == w.recv
    ensures Sim(e, s', w')
  {
    forall c | 0 <= c < e.p.n ensures CardShown(e, s', w', c) { assert CardShown(e, s, w, c); }
  }

  /** Chunks of a call lie apart in the users' memory. */
  lemma ChunksApart(call: Call, j: nat, m: nat, x: nat)
    requires call.rankNum > 0 && j != m && x < Len(call, j)
    ensures !(Off(call, m) <= Off(call, j) + x < Off(call, m) + Len(call, m))
  {
    StrideAtLeast(call.rankNum, call.chunk);
    if j < m { TimesStep(j, m, Stride(call)); } else { TimesStep(m, j, Stride(call)); }
  }

  /** A chunk is given to all users of a card. */
  lemma ChunkGiven<T>(e: Env<T>, user: map<(nat, nat), Term>, recv: (nat, nat, nat) -> T, g: nat, m: nat, t: Term,
      at: Region, b: nat -> T, recv': (nat, nat, nat) -> T)
    requires g < |e.p.calls| && e.p.calls[g].rankNum > 0 && at.len == Len(e.p.calls[g], m)
    requires UserShown(e, user, recv) && forall x: nat :: ByteShown(e, t, b, at, x)
    requires recv' == Given(recv, g, 0, e.p.calls[g].rankNum, Off(e.p.calls[g], m), at.len, b, at.off)
    ensures UserShown(e, user[(g, m) := t], recv')
  {
    var user' := user[(g, m) := t];
    forall h: nat, j: nat, i: nat, x: nat ensures UserByte(e, user', recv', h, j, i, x) {
      assert UserByte(e, user, recv, h, j, i, x) && ByteShown(e, t, b, at, x);
      if h == g && j != m && x < Len(e.p.calls[g], j) { ChunksApart(e.p.calls[g], j, m, x); }
    }
  }

  lemma QuietSim<T>(e: Env<T>, s: State, w: World<T>, c: nat)
    requires Valid(e.p) && Sim(e, s, w) && At(e.p, s, c)
    requires !OpAt(e.p, s.pc[c], c).LoadIn? && !OpAt(e.p, s.pc[c], c).PushData? && !OpAt(e.p, s.pc[c], c).ToUsers?
    ensures Sim(e, Apply(e.p, s, c), Run1(e, s.pc[c], w, c))
  {
    SameSim(e, s, w, Apply(e.p, s, c), Run1(e, s.pc[c], w, c));
  }

  lemma LoadSim<T>(e: Env<T>, s: State, w: World<T>, c: nat)
    requires Valid(e.p) && Sim(e, s, w) && At(e.p, s, c) && OpAt(e.p, s.pc[c], c).LoadIn?
    ensures Sim(e, Apply(e.p, s, c), Run1(e, s.pc[c], w, c))
  {
    var (pc, w') := (s.pc[c], Run1(e, s.pc[c], w, c));
    var (t, at) := (Leaf(c, pc.g, pc.m), OpAt(e.p, pc, c).at);
    forall x: nat ensures ByteShown(e, t, w'.inb[c], at, x) { }
    InSim(e, s, w, Apply(e.p, s, c), w', c, at, t);
  }

  lemma SourceShown<T>(e: Env<T>, s: State, w: World<T>, c: nat, src: Src, at: Region, x: nat)
    requires Sim(e, s, w) && c < e.p.n
    ensures ByteShown(e, Get(Buffer(s, c, src), at), BufferOf(w, c, src), at, x)
  {
    assert CardShown(e, s, w, c);
    GetShown(e, Buffer(s, c, src), BufferOf(w, c, src), at, x);
  }

  lemma PushSim<T>(e: Env<T>, s: State, w: World<T>, c: nat)
    requires Valid(e.p) && Sim(e, s, w) && At(e.p, s, c) && OpAt(e.p, s.pc[c], c).PushData?
    ensures Sim(e, Apply(e.p, s, c), Run1(e, s.pc[c], w, c))
  {
    var w' := Run1(e, s.pc[c], w, c);
    var PushData(src, at, d) := OpAt(e.p, s.pc[c], c);
    var t := Get(Buffer(s, c, src), at);
    forall x: nat ensures ByteShown(e, t, w'.out[d], at, x) { SourceShown(e, s, w, c, src, at, x); }
    OutSim(e, s, w, Apply(e.p, s, c), w', d, at, t);
  }

  lemma CopySim<T>(e: Env<T>, s: State, w: World<T>, c: nat)
    requires Valid(e.p) && Sim(e, s, w) && At(e.p, s, c) && OpAt(e.p, s.pc[c], c).ToUsers?
    ensures Sim(e, Apply(e.p, s, c), Run1(e, s.pc[c], w, c))
  {
    var (pc, s', w') := (s.pc[c], Apply(e.p, s, c), Run1(e, s.pc[c], w, c));
    var ToUsers(src, at, user) := OpAt(e.p, pc, c);
    var t := Get(Buffer(s, c, src), at);
    forall x: nat ensures ByteShown(e, t, BufferOf(w, c, src), at, x) { SourceShown(e, s, w, c, src, at, x); }
    assert CardShown(e, s, w, c);
    ChunkGiven(e, s.user[c], w.recv[c], pc.g, pc.m, t, at, BufferOf(w, c, src), w'.recv[c]);
    UserSim(e, s, w, s', w', c);
  }

  /** A card that executes the operation of a stage does what the machine's card does. */
  lemma StageSim<T>(e: Env<T>, s: State, w: World<T>, c: nat)
    requires Valid(e.p) && Sim(e, s, w) && At(e.p, s, c)
    ensures Sim(e, Apply(e.p, s, c), Run1(e, s.pc[c], w, c))
  {
    match OpAt(e.p, s.pc[c], c)
    case LoadIn(_, _) => LoadSim(e, s, w, c);
    case PushData(_, _, _) => PushSim(e, s, w, c);
    case ToUsers(_, _, _) => CopySim(e, s, w, c);
    case _ => QuietSim(e, s, w, c);
  }

  // ---- whole runs --------------------------------------------------------------------------------

  /** Where every card is in its stream, and what the operations so far have done. */
  datatype Config<T> = Config(pc: seq<Pc>, w: World<T>)

  ghost predicate Free<T>(e: Env<T>, k: Config<T>, c: nat)
    requires Valid(e.p)
  {
    && |k.pc| == e.p.n && Sized(e.p.n, k.w) && c < e.p.n && k.pc[c].g < |e.p.calls| && PcOk(e.p, k.pc[c])
    && Passes(e.p.n, k.w, c, OpAt(e.p, k.pc[c], c))
  }

  ghost predicate Goes<T>(e: Env<T>, k: Config<T>, k': Config<T>)
    requires Valid(e.p)
  {
    exists c: nat :: Free(e, k, c) && k' == Config(k.pc[c := Advance(e.p, k.pc[c])], Run1(e, k.pc[c], k.w, c))
  }

  /** Any buffer contents, any flags that the counters have reached. */
  ghost predicate Starts<T>(e: Env<T>, k: Config<T>) {
    && |k.pc| == e.p.n && Sized(e.p.n, k.w)
    && (forall c :: 0 <= c < e.p.n ==>
          k.pc[c] == Pc(0, 0, SetReady) && k.w.data[c] <= e.p.nextcnt && k.w.ready[c] <= e.p.prevcnt)
    && (forall c, q :: 0 <= c < e.p.n && 0 <= q < ACK_FLAGS ==> k.w.ack[c][q] <= e.p.bcastcnt)
  }

  ghost predicate StreamRun<T>(e: Env<T>, tr: seq<Config<T>>)
    requires Valid(e.p)
  {
    tr != [] && Starts(e, tr[0]) && forall i :: 0 < i < |tr| ==> Goes(e, tr[i - 1], tr[i])
  }

  function Empty<T>(e: Env<T>, k: Config<T>): State {
    State(k.pc, k.w.data, k.w.ready, k.w.ack, seq(e.p.n, _ => map[]), seq(e.p.n, _ => map[]), seq(e.p.n, _ => map[]))
  }

  /** Every run of the streams is a run of the machine, byte by byte. */
  lemma {:induction false} Simulated<T>(e: Env<T>, tr: seq<Config<T>>) returns (abs: seq<State>)
    requires Valid(e.p) && StreamRun(e, tr)
    ensures abs != [] && Run(e.p, abs) && abs[|abs| - 1].pc == tr[|tr| - 1].pc
    ensures Sim(e, abs[|abs| - 1], tr[|tr| - 1].w)
    decreases |tr|
  {
    if |tr| == 1 {
      abs := [Empty(e, tr[0])];
      forall c | 0 <= c < e.p.n ensures CardShown(e, abs[0], tr[0].w, c) { }
    } else {
      abs := Simulated(e, tr[..|tr| - 1]);
      assert Goes(e, tr[|tr| - 2], tr[|tr| - 1]);
      abs := Follow(e, abs, tr[|tr| - 2], tr[|tr| - 1]);
    }
  }

  lemma Follow<T>(e: Env<T>, abs: seq<State>, k: Config<T>, k': Config<T>) returns (abs': seq<State>)
    requires Valid(e.p) && abs != [] && Run(e.p, abs) && Goes(e, k, k')
    requires abs[|abs| - 1].pc == k.pc && Sim(e, abs[|abs| - 1], k.w)
    ensures abs' != [] && Run(e.p, abs') && abs'[|abs'| - 1].pc == k'.pc && Sim(e, abs'[|abs'| - 1], k'.w)
  {
    var s := abs[|abs| - 1];
    var c: nat :| Free(e, k, c) && k' == Config(k.pc[c := Advance(e.p, k.pc[c])], Run1(e, k.pc[c], k.w, c));
    WaitsAgree(e, s, k, c);
    StageSim(e, s, k.w, c);
    FlagEffects(e.p, s, c);
    RunGrows(e.p, abs, c);
    abs' := abs + [Apply(e.p, s, c)];
  }

  lemma WaitsAgree<T>(e: Env<T>, s: State, k: Config<T>, c: nat)
    requires Valid(e.p) && Sim(e, s, k.w) && s.pc == k.pc
    ensures Free(e, k, c) <==> At(e.p, s, c) && Enabled(e.p, s, c)
  {
  }

  ghost predicate SomeoneFree<T>(e: Env<T>, k: Config<T>)
    requires Valid(e.p)
  {
    exists c: nat :: Free(e, k, c)
  }

  /** As long as some card has operations left, no wait holds every card up. */
  lemma StreamsNeverBlock<T>(e: Env<T>, tr: seq<Config<T>>, d: nat)
    requires Valid(e.p) && StreamRun(e, tr) && d < e.p.n == |tr[|tr| - 1].pc| && tr[|tr| - 1].pc[d].g < |e.p.calls|
    ensures SomeoneFree(e, tr[|tr| - 1])
  {
    var abs := Simulated(e, tr);
    var s := abs[|abs| - 1];
    BroadcastNeverDeadlocks(e.p, abs, d);
    var c: nat :| CanStep(e.p, s, c);
    WaitsAgree(e, s, tr[|tr| - 1], c);
  }

  lemma RunGrows(p: Chain, abs: seq<State>, c: nat)
    requires Valid(p) && abs != [] && Run(p, abs) && At(p, abs[|abs| - 1], c) && Enabled(p, abs[|abs| - 1], c)
    requires Shape(p, Apply(p, abs[|abs| - 1], c))
    ensures Run(p, abs + [Apply(p, abs[|abs| - 1], c)])
  {
    var (s, longer) := (abs[|abs| - 1], abs + [Apply(p, abs[|abs| - 1], c)]);
    assert BroadcastTheorems.Step(p, s, Apply(p, s, c));
    forall i | 0 < i < |longer| ensures BroadcastTheorems.Step(p, longer[i - 1], longer[i]) {
      if i < |abs| { assert BroadcastTheorems.Step(p, abs[i - 1], abs[i]); }
    }
  }

  /** When a card has left a call, all its users have byte u of the root's data at u, for
      every byte of every chunk of this chain. */
  lemma StreamsBroadcast<T>(e: Env<T>, tr: seq<Config<T>>, c: nat, h: nat, j: nat, i: nat, x: nat)
    requires Valid(e.p) && StreamRun(e, tr) && c < e.p.n == |tr[|tr| - 1].pc| && h < |e.p.calls|
    requires h < tr[|tr| - 1].pc[c].g && i < e.p.calls[h].rankNum
    requires j < Steps(e.p.calls[h]) && x < Len(e.p.calls[h], j)
    ensures |tr[|tr| - 1].w.recv| == e.p.n
    ensures tr[|tr| - 1].w.recv[c](h, i, Off(e.p.calls[h], j) + x) == e.send(h, Off(e.p.calls[h], j) + x)
  {
    var abs := Simulated(e, tr);
    var (s, w) := (abs[|abs| - 1], tr[|tr| - 1].w);
    BroadcastDelivers(e.p, abs, c, h, j);
    assert CardShown(e, s, w, c) && UserByte(e, s.user[c], w.recv[c], h, j, i, x);
  }

  /** The chains of the ranks of a card share the data out: every byte is in one chunk. */
  lemma SharedOut(call: Call, u: nat) returns (rankId: nat, j: nat)
    requires u < call.size && 0 < call.chunk && 0 < call.rankNum
    ensures
      var chain := call.(rankId := rankId);
      && rankId < call.rankNum && Stride(chain) > 0 && j < Steps(chain)
      && Off(chain, j) <= u < Off(chain, j) + Len(chain, j)
  {
    var (chunk, rankNum) := (call.chunk, call.rankNum);
    var block := u / chunk;
    j, rankId := block / rankNum, block % rankNum;
    assert u == block * chunk + u % chunk && block == j * rankNum + rankId;
    TimesIs(rankId, chunk);
    TimesIs(rankNum, chunk);
    TimesIs(j, rankNum * chunk);
    Shares(j, rankNum, rankId, chunk);
    StrideAtLeast(rankNum, chunk);
    StepsAre(call.(rankId := rankId), j);
  }

  lemma Shares(j: nat, rankNum: nat, rankId: nat, chunk: nat)
    ensures (j * rankNum + rankId) * chunk == rankId * chunk + j * (rankNum * chunk)
  {
    assert (j * rankNum) * chunk == j * (rankNum * chunk);
  }
}
