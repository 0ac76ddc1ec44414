/** The streams of Reduce, executed operation by operation on bytes: whatever the
    interleaving, the root's user has every byte of the reduction over all ranks. */
module ReduceBytes {
  import opened Arith
  import opened Bytes
  import opened Cycle
  import opened Memory
  import opened Terms
  import opened ReduceChain
  import opened ReduceMachine
  import opened ReduceTheorems

  /** A chain, what the ranks send, by call and then card, rank of the card and byte, the
      element operation, and a value for what nobody has written. */
  datatype Env<!T> = Env(p: Chain, send: nat -> (nat, nat, nat) -> T, plus: (T, T) -> T, junk: T)

  /** Flags, cross buffers, and what the root's user of every card has received, by call
      and byte. */
  datatype World<T> = World(data: seq<nat>, ready: seq<nat>, inb: seq<nat -> T>, out: seq<nat -> T>,
    recv: seq<(nat, nat) -> T>)

  predicate Sized<T>(n: nat, w: World<T>) {
    |w.data| == |w.ready| == |w.inb| == |w.out| == |w.recv| == n
  }

  // ---- what an operation does --------------------------------------------------------------

  /** One user gets `len` bytes of `from` at `at`. */
  function GivenOne<T>(user: (nat, nat) -> T, g: nat, at: nat, len: nat, from: nat -> T, src: nat): (nat, nat) -> T {
    (q: nat, x: nat) => if q == g && at <= x < at + len then from(x - at + src) else user(q, x)
  }

  /** Card c executes one operation of call g, whose cards have `ranks` users. */
  function Exec<T>(n: nat, w: World<T>, c: nat, g: nat, ranks: nat, send: (nat, nat, nat) -> T, plus: (T, T) -> T,
      op: Op): (w': World<T>)
    requires Sized(n, w) && c < n && ranks > 0
    ensures Sized(n, w')
  {
    match op
    case SendFlag(no, to, v) =>
      if to >= n then w else if no == 0 then w.(data := w.data[to := v]) else w.(ready := w.ready[to := v])
    case ReduceLocal(user, at) =>
      w.(inb := w.inb[c := Copied(w.inb[c], at.off, at.len, (u: nat) => Bytes.Local(plus, ranks, send, c, u), user)])
    case Combine(at) => w.(out := w.out[c := Combined(w.out[c], at, plus, w.inb[c], w.out[c])])
    case CombineToUser(at, user) =>
      w.(recv := w.recv[c := GivenOne(w.recv[c], g, user, at.len, Combined(w.out[c], at, plus, w.inb[c], w.out[c]),
                                      at.off)])
    case PushData(src, at, to) =>
      if to >= n then w else w.(out := w.out[to := Copied(w.out[to], at.off, at.len, BufferOf(w, c, src), at.off)])
    case _ => w
  }

  function BufferOf<T>(w: World<T>, c: nat, src: Src): nat -> T
    requires c < |w.inb| && c < |w.out|
  {
    if src == InBuff then w.inb[c] else w.out[c]
  }

  /** A wait for a flag lets card c go on.  The token orders the ranks of a card among one
      another, see SplitToken. */
  predicate Passes<T>(n: nat, w: World<T>, c: nat, op: Op)
    requires Sized(n, w) && c < n
  {
    op.WaitGeq? ==> (if op.no == 0 then w.data[c] else w.ready[c]) >= op.value
  }

  function ExecAll<T>(n: nat, w: World<T>, c: nat, g: nat, ranks: nat, send: (nat, nat, nat) -> T, plus: (T, T) -> T,
      ops: seq<Op>): (w': World<T>)
    requires Sized(n, w) && c < n && ranks > 0
    ensures Sized(n, w')
    decreases |ops|
  {
    if ops == [] then w
    else ExecAll(n, Exec(n, w, c, g, ranks, send, plus, ops[0]), c, g, ranks, send, plus, ops[1..])
  }

  lemma ExecOne<T>(n: nat, w: World<T>, c: nat, g: nat, ranks: nat, send: (nat, nat, nat) -> T, plus: (T, T) -> T,
      op: Op)
    requires Sized(n, w) && c < n && ranks > 0
    ensures ExecAll(n, w, c, g, ranks, send, plus, [op]) == Exec(n, w, c, g, ranks, send, plus, op)
  {
  }

  /** Waiting for the turn and passing it on leave buffers and users alone. */
  lemma ExecTurn<T>(n: nat, w: World<T>, c: nat, g: nat, ranks: nat, send: (nat, nat, nat) -> T, plus: (T, T) -> T,
      op: Op, a: nat, b: nat)
    requires Sized(n, w) && c < n && ranks > 0
    ensures ExecAll(n, w, c, g, ranks, send, plus, [WaitToken(a), op, SetToken(b)])
      == Exec(n, w, c, g, ranks, send, plus, op)
  {
    assert [WaitToken(a), op, SetToken(b)][1..] == [op, SetToken(b)] && [op, SetToken(b)][1..] == [SetToken(b)];
    ExecOne(n, Exec(n, w, c, g, ranks, send, plus, op), c, g, ranks, send, plus, SetToken(b));
  }

  lemma ExecEmitted<T>(n: nat, w: World<T>, c: nat, g: nat, call: Call, send: (nat, nat, nat) -> T, plus: (T, T) -> T,
      op: Op)
    requires Sized(n, w) && c < n && call.rankId < call.rankNum
    ensures ExecAll(n, w, c, g, call.rankNum, send, plus, Emit(call, op))
      == Exec(n, w, c, g, call.rankNum, send, plus, op)
  {
    ExecOne(n, w, c, g, call.rankNum, send, plus, op);
    if op.ReduceLocal? {
      ExecTurn(n, w, c, g, call.rankNum, send, plus, op, call.rankId, Next(call.rankNum, call.rankId));
    }
  }

  // ---- what blocks stand for ----------------------------------------------------------------

  /** Byte x of slice m of call g, reduced over the ranks of card c. */
  function InputAt<T>(e: Env<T>, c: nat, g: nat, m: nat, x: nat): T {
    if g < |e.p.calls| && e.p.calls[g].rankNum > 0 then
      Bytes.Local(e.plus, e.p.calls[g].rankNum, e.send(g), c, Off(e.p.calls[g], m) + x)
    else e.junk
  }

  function InputsAt<T>(e: Env<T>, x: nat): (nat, nat, nat) -> T {
    (c: nat, g: nat, m: nat) => InputAt(e, c, g, m, x)
  }

  function Val<T>(e: Env<T>, t: Term, x: nat): T {
    Eval(t, e.plus, InputsAt(e, x), e.junk)
  }

  ghost predicate ByteShown<T>(e: Env<T>, t: Term, b: nat -> T, k: Region, x: nat) {
    x < k.len && Clean(t) ==> b(k.off + x) == Val(e, t, x)
  }

  /** A buffer holds the bytes of the blocks that are intact in the machine's buffer. */
  ghost predicate Shown<T>(e: Env<T>, m: Mem, b: nat -> T) {
    forall k: Region, x: nat :: k in m ==> ByteShown(e, m[k], b, k, x)
  }

  lemma PutShown<T>(e: Env<T>, m: Mem, b: nat -> T, at: Region, t: Term, b': nat -> T)
    requires Shown(e, m, b) && Wrote(b, b', at) && forall x: nat :: ByteShown(e, t, b', at, x)
    ensures Shown(e, Put(m, at, t), b')
  {
    forall k: Region, x: nat | k in Put(m, at, t) ensures ByteShown(e, Put(m, at, t)[k], b', k, x) {
      if k != at { assert ByteShown(e, m[k], b, k, x); }
    }
  }

  lemma GetShown<T>(e: Env<T>, m: Mem, b: nat -> T, at: Region, x: nat)
    requires Shown(e, m, b)
    ensures ByteShown(e, Get(m, at), b, at, x)
  {
    if at in m { assert ByteShown(e, m[at], b, at, x); }
  }

  /** The user has byte x of slice j of call h in its place. */
  ghost predicate UserByte<T>(e: Env<T>, user: map<(nat, nat), Term>, recv: (nat, nat) -> T, h: nat, j: nat, x: nat) {
    (h, j) in user && h < |e.p.calls| && x < Len(e.p.calls[h], j) && Clean(user[(h, j)]) ==>
      recv(h, Off(e.p.calls[h], j) + x) == Val(e, user[(h, j)], x)
  }

  ghost predicate UserShown<T>(e: Env<T>, user: map<(nat, nat), Term>, recv: (nat, nat) -> T) {
    forall h: nat, j: nat, x: nat :: UserByte(e, user, recv, h, j, x)
  }

  ghost predicate CardShown<T>(e: Env<T>, s: State, w: World<T>, c: nat)
    requires Shape(e.p, s) && Sized(e.p.n, w) && c < e.p.n
  {
    Shown(e, s.inb[c], w.inb[c]) && Shown(e, s.out[c], w.out[c]) && UserShown(e, s.user[c], w.recv[c])
  }

  ghost predicate Sim<T>(e: Env<T>, s: State, w: World<T>) {
    && Shape(e.p, s) && Sized(e.p.n, w) && s.data == w.data && s.ready == w.ready
    && forall c :: 0 <= c < e.p.n ==> CardShown(e, s, w, c)
  }

  // ---- stage by stage ---------------------------------------------------------------------------

  /** What a stage puts on the stream (ReduceChain.StepIsStages). */
  function OpsAt(p: Chain, pc: Pc, c: nat): seq<Op>
    requires Valid(p) && pc.g < |p.calls| && c < p.n
  {
    assert ValidCall(p.n, p.calls[pc.g]);
    Emit(p.calls[pc.g], OpAt(p, pc, c))
  }

  function Run1<T>(e: Env<T>, pc: Pc, w: World<T>, c: nat): (w': World<T>)
    requires Valid(e.p) && Sized(e.p.n, w) && c < e.p.n && pc.g < |e.p.calls|
    ensures Sized(e.p.n, w')
  {
    assert ValidCall(e.p.n, e.p.calls[pc.g]);
    ExecAll(e.p.n, w, c, pc.g, e.p.calls[pc.g].rankNum, e.send(pc.g), e.plus, OpsAt(e.p, pc, c))
  }

  lemma RunIs<T>(e: Env<T>, pc: Pc, w: World<T>, c: nat)
    requires Valid(e.p) && Sized(e.p.n, w) && c < e.p.n && pc.g < |e.p.calls|
    ensures e.p.calls[pc.g].rankNum > 0
    ensures Run1(e, pc, w, c)
      == Exec(e.p.n, w, c, pc.g, e.p.calls[pc.g].rankNum, e.send(pc.g), e.plus, OpAt(e.p, pc, c))
  {
    assert ValidCall(e.p.n, e.p.calls[pc.g]);
    ExecEmitted(e.p.n, w, c, pc.g, e.p.calls[pc.g], e.send(pc.g), e.plus, OpAt(e.p, pc, c));
  }

  /** One buffer changes in one range, and everything else stays. */
  lemma OutSim<T>(e: Env<T>, s: State, w: World<T>, s': State, w': World<T>, d: nat, at: Region, t: Term)
    requires Sim(e, s, w) && Shape(e.p, s') && Sized(e.p.n, w') && d < e.p.n
    requires s'.data == w'.data && s'.ready == w'.ready
    requires s'.out == s.out[d := Put(s.out[d], at, t)] && w'.out == w.out[d := w'.out[d]]
    requires s'.inb == s.inb && s'.user == s.user && w'.inb == w.inb && w'.recv == w.recv
    requires Wrote(w.out[d], w'.out[d], at) && forall x: nat :: ByteShown(e, t, w'.out[d], at, x)
    ensures Sim(e, s', w')
  {
    forall c | 0 <= c < e.p.n ensures CardShown(e, s', w', c) {
      assert CardShown(e, s, w, c);
      if c == d { PutShown(e, s.out[d], w.out[d], at, t, w'.out[d]); }
    }
  }

  lemma InSim<T>(e: Env<T>, s: State, w: World<T>, s': State, w': World<T>, d: nat, at: Region, t: Term)
    requires Sim(e, s, w) && Shape(e.p, s') && Sized(e.p.n, w') && d < e.p.n
    requires s'.data == w'.data && s'.ready == w'.ready
    requires s'.inb == s.inb[d := Put(s.inb[d], at, t)] && w'.inb == w.inb[d := w'.inb[d]]
    requires s'.out == s.out && s'.user == s.user && w'.out == w.out && w'.recv == w.recv
    requires Wrote(w.inb[d], w'.inb[d], at) && forall x: nat :: ByteShown(e, t, w'.inb[d], at, x)
    ensures Sim(e, s', w')
  {
    forall c | 0 <= c < e.p.n ensures CardShown(e, s', w', c) {
      assert CardShown(e, s, w, c);
      if c == d { PutShown(e, s.inb[d], w.inb[d], at, t, w'.inb[d]); }
    }
  }

  lemma UserSim<T>(e: Env<T>, s: State, w: World<T>, s': State, w': World<T>, d: nat)
    requires Sim(e, s, w) && Shape(e.p, s') && Sized(e.p.n, w') && d < e.p.n
    requires s'.data == w'.data && s'.ready == w'.ready
    requires s'.user == s.user[d := s'.user[d]] && w'.recv == w.recv[d := w'.recv[d]]
    requires UserShown(e, s'.user[d], w'.recv[d])
    requires s'.inb == s.inb && s'.out == s.out && w'.inb == w.inb && w'.out == w.out
    ensures Sim(e, s', w')
  {
    forall c | 0 <= c < e.p.n ensures CardShown(e, s', w', c) { assert CardShown(e, s, w, c); }
  }

  lemma SameSim<T>(e: Env<T>, s: State, w: World<T>, s': State, w': World<T>)
    requires Sim(e, s, w) && Shape(e.p, s') && Sized(e.p.n, w')
    requires s'.data == w'.data && s'.ready == w'.ready
    requires s'.inb == s.inb && s'.out == s.out && s'.user == s.user
    requires w'.inb == w.inb && w'.out == w.out && w'.recv == w.recv
    ensures Sim(e, s', w')
  {
    forall c | 0 <= c < e.p.n ensures CardShown(e, s', w', c) { assert CardShown(e, s, w, c); }
  }

  /** Slices of a call lie apart in the user's memory. */
  lemma SlicesApart(call: Call, j: nat, m: nat, x: nat)
    requires call.rankNum > 0 && j != m && x < Len(call, j)
    ensures !(Off(call, m) <= Off(call, j) + x < Off(call, m) + Len(call, m))
  {
    TimesStep(0, call.rankNum, SLICE);
    if j < m { TimesStep(j, m, Stride(call)); } else { TimesStep(m, j, Stride(call)); }
  }

  /** A slice is given to the user. */
  lemma SliceGiven<T>(e: Env<T>, user: map<(nat, nat), Term>, recv: (nat, nat) -> T, g: nat, m: nat, t: Term,
      at: Region, b: nat -> T, recv': (nat, nat) -> T)
    requires g < |e.p.calls| && e.p.calls[g].rankNum > 0 && at.len == Len(e.p.calls[g], m)
    requires UserShown(e, user, recv) && forall x: nat :: ByteShown(e, t, b, at, x)
    requires recv' == GivenOne(recv, g, Off(e.p.calls[g], m), at.len, b, at.off)
    ensures UserShown(e, user[(g, m) := t], recv')
  {
    var user' := user[(g, m) := t];
    forall h: nat, j: nat, x: nat ensures UserByte(e, user', recv', h, j, x) {
      assert UserByte(e, user, recv, h, j, x) && ByteShown(e, t, b, at, x);
      if h == g && j != m && x < Len(e.p.calls[g], j) { SlicesApart(e.p.calls[g], j, m, x); }
    }
  }

  predicate Moves(op: Op) {
    op.ReduceLocal? || op.Combine? || op.CombineToUser? || op.PushData?
  }

  lemma QuietSim<T>(e: Env<T>, s: State, w: World<T>, c: nat)
    requires Valid(e.p) && Sim(e, s, w) && At(e.p, s, c) && !Moves(OpAt(e.p, s.pc[c], c))
    ensures Sim(e, Apply(e.p, s, c), Run1(e, s.pc[c], w, c))
  {
    RunIs(e, s.pc[c], w, c);
    SameSim(e, s, w, Apply(e.p, s, c), Run1(e, s.pc[c], w, c));
  }

  lemma LocalSim<T>(e: Env<T>, s: State, w: World<T>, c: nat)
    requires Valid(e.p) && Sim(e, s, w) && At(e.p, s, c) && OpAt(e.p, s.pc[c], c).ReduceLocal?
    ensures Sim(e, Apply(e.p, s, c), Run1(e, s.pc[c], w, c))
  {
    RunIs(e, s.pc[c], w, c);
    var (pc, w') := (s.pc[c], Run1(e, s.pc[c], w, c));
    var (t, at) := (Leaf(c, pc.g, pc.m), OpAt(e.p, pc, c).at);
    forall x: nat ensures ByteShown(e, t, w'.inb[c], at, x) { }
    InSim(e, s, w, Apply(e.p, s, c), w', c, at, t);
  }

  lemma SourceShown<T>(e: Env<T>, s: State, w: World<T>, c: nat, src: Src, at: Region, x: nat)
    requires Sim(e, s, w) && c < e.p.n
    ensures ByteShown(e, Get(if src == InBuff then s.inb[c] else s.out[c], at), BufferOf(w, c, src), at, x)
  {
    assert CardShown(e, s, w, c);
    GetShown(e, if src == InBuff then s.inb[c] else s.out[c], BufferOf(w, c, src), at, x);
  }

  lemma CombineShown<T>(e: Env<T>, s: State, w: World<T>, c: nat, at: Region, x: nat)
    requires Sim(e, s, w) && c < e.p.n
    ensures ByteShown(e, Node(Get(s.inb[c], at), Get(s.out[c], at)),
                      Combined(w.out[c], at, e.plus, w.inb[c], w.out[c]), at, x)
  {
    SourceShown(e, s, w, c, InBuff, at, x);
    SourceShown(e, s, w, c, OutBuff, at, x);
  }

  lemma PushSim<T>(e: Env<T>, s: State, w: World<T>, c: nat)
    requires Valid(e.p) && Sim(e, s, w) && At(e.p, s, c) && OpAt(e.p, s.pc[c], c).PushData?
    ensures Sim(e, Apply(e.p, s, c), Run1(e, s.pc[c], w, c))
  {
    RunIs(e, s.pc[c], w, c);
    var w' := Run1(e, s.pc[c], w, c);
    var PushData(src, at, d) := OpAt(e.p, s.pc[c], c);
    var t := Get(if src == InBuff then s.inb[c] else s.out[c], at);
    forall x: nat ensures ByteShown(e, t, w'.out[d], at, x) { SourceShown(e, s, w, c, src, at, x); }
    OutSim(e, s, w, Apply(e.p, s, c), w', d, at, t);
  }

  lemma CombineSim<T>(e: Env<T>, s: State, w: World<T>, c: nat)
    requires Valid(e.p) && Sim(e, s, w) && At(e.p, s, c) && OpAt(e.p, s.pc[c], c).Combine?
    ensures Sim(e, Apply(e.p, s, c), Run1(e, s.pc[c], w, c))
  {
    RunIs(e, s.pc[c], w, c);
    var w' := Run1(e, s.pc[c], w, c);
    var at := OpAt(e.p, s.pc[c], c).at;
    var t := Node(Get(s.inb[c], at), Get(s.out[c], at));
    forall x: nat ensures ByteShown(e, t, w'.out[c], at, x) { CombineShown(e, s, w, c, at, x); }
    OutSim(e, s, w, Apply(e.p, s, c), w', c, at, t);
  }

  lemma GiveSim<T>(e: Env<T>, s: State, w: World<T>, c: nat)
    requires Valid(e.p) && Sim(e, s, w) && At(e.p, s, c) && OpAt(e.p, s.pc[c], c).CombineToUser?
    ensures Sim(e, Apply(e.p, s, c), Run1(e, s.pc[c], w, c))
  {
    RunIs(e, s.pc[c], w, c);
    var (pc, s', w') := (s.pc[c], Apply(e.p, s, c), Run1(e, s.pc[c], w, c));
    var at := OpAt(e.p, pc, c).at;
    var t := Node(Get(s.inb[c], at), Get(s.out[c], at));
    var b := Combined(w.out[c], at, e.plus, w.inb[c], w.out[c]);
    forall x: nat ensures ByteShown(e, t, b, at, x) { CombineShown(e, s, w, c, at, x); }
    assert CardShown(e, s, w, c);
    SliceGiven(e, s.user[c], w.recv[c], pc.g, pc.m, t, at, b, w'.recv[c]);
    UserSim(e, s, w, s', w', c);
  }

  /** A card that executes the operations of a stage does what the machine's card does. */
  lemma StageSim<T>(e: Env<T>, s: State, w: World<T>, c: nat)
    requires Valid(e.p) && Sim(e, s, w) && At(e.p, s, c)
    ensures Sim(e, Apply(e.p, s, c), Run1(e, s.pc[c], w, c))
  {
    match OpAt(e.p, s.pc[c], c)
    case ReduceLocal(_, _) => LocalSim(e, s, w, c);
    case Combine(_) => CombineSim(e, s, w, c);
    case CombineToUser(_, _) => GiveSim(e, s, w, c);
    case PushData(_, _, _) => PushSim(e, s, w, c);
    case _ => QuietSim(e, s, w, c);
  }

  // ---- whole runs --------------------------------------------------------------------------------

  /** Where every card is in its stream, and what the operations so far have done. */
  datatype Config<T> = Config(pc: seq<Pc>, w: World<T>)

  ghost predicate Free<T>(e: Env<T>, k: Config<T>, c: nat)
    requires Valid(e.p)
  {
    && |k.pc| == e.p.n && Sized(e.p.n, k.w) && c < e.p.n && k.pc[c].g < |e.p.calls| && PcOk(e.p, k.pc[c])
    && forall i :: 0 <= i < |OpsAt(e.p, k.pc[c], c)| ==> Passes(e.p.n, k.w, c, OpsAt(e.p, k.pc[c], c)[i])
  }

  ghost predicate Goes<T>(e: Env<T>, k: Config<T>, k': Config<T>)
    requires Valid(e.p)
  {
    exists c: nat :: Free(e, k, c) && k' == Config(k.pc[c := Advance(e.p, k.pc[c])], Run1(e, k.pc[c], k.w, c))
  }

  /** Any buffer contents, any flags that the counters have reached. */
  ghost predicate Starts<T>(e: Env<T>, k: Config<T>) {
    && |k.pc| == e.p.n && Sized(e.p.n, k.w)
    && forall c :: 0 <= c < e.p.n ==>
         k.pc[c] == Pc(0, 0, SetReady) && k.w.data[c] <= e.p.nextcnt && k.w.ready[c] <= e.p.prevcnt
  }

  ghost predicate StreamRun<T>(e: Env<T>, tr: seq<Config<T>>)
    requires Valid(e.p)
  {
    tr != [] && Starts(e, tr[0]) && forall i :: 0 < i < |tr| ==> Goes(e, tr[i - 1], tr[i])
  }

  function Empty<T>(e: Env<T>, k: Config<T>): State {
    State(k.pc, k.w.data, k.w.ready, seq(e.p.n, _ => map[]), seq(e.p.n, _ => map[]), seq(e.p.n, _ => map[]))
  }

  /** Every run of the streams is a run of the machine, byte by byte. */
  lemma {:induction false} Simulated<T>(e: Env<T>, tr: seq<Config<T>>) returns (abs: seq<State>)
    requires Valid(e.p) && StreamRun(e, tr)
    ensures abs != [] && Run(e.p, abs) && abs[|abs| - 1].pc == tr[|tr| - 1].pc
    ensures Sim(e, abs[|abs| - 1], tr[|tr| - 1].w)
    decreases |tr|
  {
    if |tr| == 1 {
      abs := [Empty(e, tr[0])];
      forall c | 0 <= c < e.p.n ensures CardShown(e, abs[0], tr[0].w, c) { }
    } else {
      abs := Simulated(e, tr[..|tr| - 1]);
      assert Goes(e, tr[|tr| - 2], tr[|tr| - 1]);
      abs := Follow(e, abs, tr[|tr| - 2], tr[|tr| - 1]);
    }
  }

  lemma Follow<T>(e: Env<T>, abs: seq<State>, k: Config<T>, k': Config<T>) returns (abs': seq<State>)
    requires Valid(e.p) && abs != [] && Run(e.p, abs) && Goes(e, k, k')
    requires abs[|abs| - 1].pc == k.pc && Sim(e, abs[|abs| - 1], k.w)
    ensures abs' != [] && Run(e.p, abs') && abs'[|abs'| - 1].pc == k'.pc && Sim(e, abs'[|abs'| - 1], k'.w)
  {
    var s := abs[|abs| - 1];
    var c: nat :| Free(e, k, c) && k' == Config(k.pc[c := Advance(e.p, k.pc[c])], Run1(e, k.pc[c], k.w, c));
    WaitsAgree(e, s, k, c);
    StageSim(e, s, k.w, c);
    RunGrows(e.p, abs, c);
    abs' := abs + [Apply(e.p, s, c)];
  }

  lemma WaitsAgree<T>(e: Env<T>, s: State, k: Config<T>, c: nat)
    requires Valid(e.p) && Sim(e, s, k.w) && s.pc == k.pc
    ensures Free(e, k, c) <==> At(e.p, s, c) && Enabled(e.p, s, c)
  {
    if At(e.p, s, c) {
      var (op, ops) := (OpAt(e.p, k.pc[c], c), OpsAt(e.p, k.pc[c], c));
      if op.WaitGeq? { assert ops[0] == op; }
      forall i | 0 <= i < |ops| && !op.WaitGeq? ensures Passes(e.p.n, k.w, c, ops[i]) { }
    }
  }

  ghost predicate SomeoneFree<T>(e: Env<T>, k: Config<T>)
    requires Valid(e.p)
  {
    exists c: nat :: Free(e, k, c)
  }

  /** As long as some card has operations left, no wait holds every card up. */
  lemma StreamsNeverBlock<T>(e: Env<T>, tr: seq<Config<T>>, d: nat)
    requires Valid(e.p) && StreamRun(e, tr) && d < e.p.n == |tr[|tr| - 1].pc| && tr[|tr| - 1].pc[d].g < |e.p.calls|
    ensures SomeoneFree(e, tr[|tr| - 1])
  {
    var abs := Simulated(e, tr);
    var s := abs[|abs| - 1];
    ReduceNeverDeadlocks(e.p, abs, d);
    var c: nat :| CanStep(e.p, s, c);
    WaitsAgree(e, s, tr[|tr| - 1], c);
  }

  lemma RunGrows(p: Chain, abs: seq<State>, c: nat)
    requires Valid(p) && abs != [] && Run(p, abs) && At(p, abs[|abs| - 1], c) && Enabled(p, abs[|abs| - 1], c)
    requires Shape(p, Apply(p, abs[|abs| - 1], c))
    ensures Run(p, abs + [Apply(p, abs[|abs| - 1], c)])
  {
    var (s, longer) := (abs[|abs| - 1], abs + [Apply(p, abs[|abs| - 1], c)]);
    assert ReduceTheorems.Step(p, s, Apply(p, s, c));
    forall i | 0 < i < |longer| ensures ReduceTheorems.Step(p, longer[i - 1], longer[i]) {
      if i < |abs| { assert ReduceTheorems.Step(p, abs[i - 1], abs[i]); }
    }
  }

  /** What all ranks of all cards have at byte u of call h. */
  function Reduced<T>(e: Env<T>, h: nat, u: nat): T
    requires e.p.n > 0 && h < |e.p.calls| && e.p.calls[h].rankNum > 0
  {
    Reduce(e.plus, seq(e.p.n, c requires 0 <= c < e.p.n => Bytes.Local(e.plus, e.p.calls[h].rankNum, e.send(h), c, u)))
  }

  lemma InputsAre<T>(e: Env<T>, h: nat, j: nat, x: nat)
    requires Valid(e.p) && h < |e.p.calls| && e.p.calls[h].rankNum > 0
    ensures Reduce(e.plus, Inputs(InputsAt(e, x), e.p.n, h, j)) == Reduced(e, h, Off(e.p.calls[h], j) + x)
  {
    var (ranks, u) := (e.p.calls[h].rankNum, Off(e.p.calls[h], j) + x);
    assert Inputs(InputsAt(e, x), e.p.n, h, j)
        == seq(e.p.n, c requires 0 <= c < e.p.n => Bytes.Local(e.plus, ranks, e.send(h), c, u));
  }

  lemma {:induction false} PartialClean(p: Chain, h: nat, j: nat, c: nat)
    requires Valid(p) && h < |p.calls| && c < p.n
    ensures Clean(Partial(p, h, j, c))
    decreases Place(p, h, c)
  {
    if Prev(p.n, c) != p.calls[h].root { PartialClean(p, h, j, Prev(p.n, c)); }
  }

  /** When the root has left a call, its user has at byte u the reduction of what all ranks
      of all cards have there, for every byte of every slice of this chain. */
  lemma StreamsReduce<T(!new)>(e: Env<T>, tr: seq<Config<T>>, h: nat, j: nat, x: nat)
    requires Valid(e.p) && StreamRun(e, tr) && e.p.n == |tr[|tr| - 1].pc| && h < |e.p.calls|
    requires ValidCall(e.p.n, e.p.calls[h]) && h < tr[|tr| - 1].pc[e.p.calls[h].root].g
    requires j < Steps(e.p.calls[h]) && x < Len(e.p.calls[h], j)
    requires Associative(e.plus) && Commutative(e.plus)
    ensures |tr[|tr| - 1].w.recv| == e.p.n
    ensures
      var (root, u) := (e.p.calls[h].root, Off(e.p.calls[h], j) + x);
      tr[|tr| - 1].w.recv[root](h, u) == Reduced(e, h, u)
  {
    var abs := Simulated(e, tr);
    var (s, w, root) := (abs[|abs| - 1], tr[|tr| - 1].w, e.p.calls[h].root);
    ReduceDelivers(e.p, abs, h, j);
    assert CardShown(e, s, w, root) && UserByte(e, s.user[root], w.recv[root], h, j, x);
    PartialClean(e.p, h, j, root);
    RootGetsReduction(e.p, h, j, e.plus, InputsAt(e, x), e.junk);
    InputsAre(e, h, j, x);
  }

  /** The chains of the ranks of a card share the data out: every byte is in one slice. */
  lemma SharedOut(n: nat, call: Call, u: nat) returns (rankId: nat, j: nat)
    requires ValidCall(n, call) && u < call.size
    ensures
      var chain := call.(rankId := rankId);
      && ValidCall(n, chain) && j < Steps(chain) && Off(chain, j) <= u < Off(chain, j) + Len(chain, j)
  {
    var (block, ranks) := (u / SLICE, call.rankNum);
    j, rankId := block / ranks, block % ranks;
    assert block == j * ranks + rankId;
    TimesIs(rankId, SLICE);
    TimesIs(ranks, SLICE);
    TimesIs(j, ranks * SLICE);
    Shares(j, ranks, rankId);
    StepsAre(n, call.(rankId := rankId), j);
  }

  lemma Shares(j: nat, ranks: nat, rankId: nat)
    ensures (j * ranks + rankId) * SLICE == rankId * SLICE + j * (ranks * SLICE)
  {
    assert (j * ranks) * SLICE == j * (ranks * SLICE);
  }
}
