/** The graphs of the recursive-doubling AllReduce, executed operation by operation on bytes.

    `Exec` gives every graph node its effect from its own arguments.  Cards that execute
    their graphs in any interleaving do what the cards of `DoublingMachine` do, so every
    user has the reduction of all ranks in every byte. */
module DoublingBytes {
  import opened Arith
  import opened Bytes
  import opened Hypercube
  import opened Memory
  import opened Terms
  import opened DoublingMachine
  import D = Doubling
  import Data = DoublingData
  import T = DoublingTheorems

  /** Bytes of the data, ranks of a card, and what they send, by card, rank and byte. */
  datatype Job<T> = Job(size: nat, rankNum: nat, send: (nat, nat, nat) -> T)

  datatype Env<!T> = Env(p: Cube, jobs: seq<Job<T>>, plus: (T, T) -> T, junk: T)

  /** Flag slots and cntflag of every card, its small buffer, and what its users have received. */
  datatype World<T> = World(slot: seq<seq<nat>>, cnt: seq<nat -> nat>, mem: seq<nat -> T>,
    recv: seq<(nat, nat, nat) -> T>)

  predicate Sized<T>(n: nat, w: World<T>) {
    |w.slot| == |w.cnt| == |w.mem| == |w.recv| == n && forall c :: 0 <= c < n ==> |w.slot[c]| == D.DEV_NUM
  }

  // ---- what a graph node does ------------------------------------------------------------------

  /** Byte x of every block of a list. */
  function BlockBytes<T>(m: nat -> T, call: D.Call, blocks: seq<nat>, x: nat): (xs: seq<T>)
    ensures |xs| == |blocks| && forall j :: 0 <= j < |xs| ==> xs[j] == m(D.Bytes(call, blocks[j], 1).off + x)
  {
    seq(|blocks|, j requires 0 <= j < |blocks| => m(D.Bytes(call, blocks[j], 1).off + x))
  }

  /** The blocks of a list, reduced byte by byte. */
  function Folded<T>(plus: (T, T) -> T, m: nat -> T, call: D.Call, blocks: seq<nat>): nat -> T
    requires blocks != []
  {
    (x: nat) => Reduce(plus, BlockBytes(m, call, blocks, x))
  }

  function Exec<T>(n: nat, w: World<T>, c: nat, g: nat, call: D.Call, job: Job<T>, plus: (T, T) -> T,
      op: D.Op): (w': World<T>)
    requires Sized(n, w) && c < n && job.rankNum > 0
    ensures Sized(n, w')
  {
    match op
    case LoadOwn(block, first) =>
      w.(mem := w.mem[c := Copied(w.mem[c], D.Bytes(call, block, 1).off, job.size,
                                  (u: nat) => Local(plus, job.rankNum, job.send, c, u), 0)],
         cnt := w.cnt[c := (i: nat) => first + i + 1])
    case P2p(at, to) =>
      if to >= n then w else w.(mem := w.mem[to := Copied(w.mem[to], at.off, at.len, w.mem[c], at.off)])
    case P2pFlag(step, to, q) =>
      if to >= n || q >= D.DEV_NUM then w else w.(slot := w.slot[to := SetSlot(w.slot[to], q, w.cnt[c](step))])
    case WaitGeq(_, _) => w
    case ReduceInto(blocks, own) =>
      if blocks == [] then w
      else w.(mem := w.mem[c := Copied(w.mem[c], D.Bytes(call, own, 1).off, job.size,
                                       Folded(plus, w.mem[c], call, blocks), 0)])
    case ReduceToUsers(blocks) =>
      if blocks == [] then w
      else w.(recv := w.recv[c := Given(w.recv[c], g, 0, job.rankNum, 0, job.size,
                                        Folded(plus, w.mem[c], call, blocks), 0)])
  }

  predicate Passes<T>(n: nat, w: World<T>, c: nat, op: D.Op)
    requires Sized(n, w) && c < n
  {
    match op
    case WaitGeq(q, v) => q < D.DEV_NUM && w.slot[c][q] >= v
    case _ => true
  }

  // ---- what blocks stand for ---------------------------------------------------------------------

  ghost predicate Ok<T>(e: Env<T>) {
    && Valid(e.p) && |e.jobs| == |e.p.kinds|
    && forall g :: 0 <= g < |e.jobs| ==> e.jobs[g].rankNum > 0 && D.ValidCall(e.p.lg, CallAt(e, g))
  }

  /** Call g, as the host issues it. */
  function CallAt<T>(e: Env<T>, g: nat): D.Call
    requires g < |e.jobs| == |e.p.kinds|
  {
    D.Call(e.p.kinds[g], e.jobs[g].size, HalfNo(e.p, g), e.p.peercnt + Start(e.p.lg, g))
  }

  function InputAt<T>(e: Env<T>, c: nat, g: nat, x: nat): T {
    if g < |e.jobs| && e.jobs[g].rankNum > 0 then Local(e.plus, e.jobs[g].rankNum, e.jobs[g].send, c, x) else e.junk
  }

  function Inputs<T>(e: Env<T>, x: nat): (nat, nat, nat) -> T {
    (c: nat, g: nat, s: nat) => InputAt(e, c, g, x)
  }

  function Val<T>(e: Env<T>, t: Term, x: nat): T {
    Eval(t, e.plus, Inputs(e, x), e.junk)
  }

  ghost predicate BlockShown<T>(e: Env<T>, m: nat -> T, g: nat, b: nat, t: Term, x: nat)
    requires g < |e.jobs| == |e.p.kinds|
  {
    x < e.jobs[g].size && Clean(t) ==> m(D.Bytes(CallAt(e, g), b, 1).off + x) == Val(e, t, x)
  }

  /** A half of the machine's buffer, as bytes. */
  ghost predicate HalfShown<T>(e: Env<T>, half: Half, h: nat, m: nat -> T)
    requires Ok(e)
  {
    forall b: nat, x: nat ::
      half.call < |e.jobs| && HalfNo(e.p, half.call) == h && b < Cards(e.p) && b in half.blocks ==>
        BlockShown(e, m, half.call, b, half.blocks[b], x)
  }

  ghost predicate UserShown<T>(e: Env<T>, user: map<nat, Term>, recv: (nat, nat, nat) -> T)
    requires Ok(e)
  {
    forall g: nat, i: nat, x: nat :: UserByte(e, user, recv, g, i, x)
  }

  ghost predicate UserByte<T>(e: Env<T>, user: map<nat, Term>, recv: (nat, nat, nat) -> T, g: nat, i: nat, x: nat)
    requires Ok(e)
  {
    g in user && g < |e.jobs| && i < e.jobs[g].rankNum && x < e.jobs[g].size && Clean(user[g]) ==>
      recv(g, i, x) == Val(e, user[g], x)
  }

  ghost predicate CardShown<T>(e: Env<T>, s: State, w: World<T>, c: nat)
    requires Ok(e) && Shape(e.p, s) && Sized(Cards(e.p), w) && c < Cards(e.p)
  {
    && HalfShown(e, s.mem[c][0], 0, w.mem[c]) && HalfShown(e, s.mem[c][1], 1, w.mem[c])
    && UserShown(e, s.user[c], w.recv[c]) && CntShown(e, s.pc[c], w.cnt[c])
  }

  /** After the kernel at the head cntflag has the flags of all rounds of the call. */
  ghost predicate CntShown<T>(e: Env<T>, pc: Pc, cnt: nat -> nat)
    requires Ok(e)
  {
    pc.k < Rounds(e.p) && pc.st != Load ==>
      forall i: nat :: cnt(i) == e.p.peercnt + Start(e.p.lg, CallNo(e.p.lg, pc.k)) + i + 1
  }

  ghost predicate Sim<T>(e: Env<T>, s: State, w: World<T>)
    requires Ok(e)
  {
    && Shape(e.p, s) && Sized(Cards(e.p), w) && s.slot == w.slot
    && forall c :: 0 <= c < Cards(e.p) ==> CardShown(e, s, w, c)
  }

  // ---- writes ------------------------------------------------------------------------------------

  /** Blocks first .. first + count - 1 of call g lie in the half of the call. */
  lemma AreaInHalf<T>(e: Env<T>, g: nat, first: nat, count: nat)
    requires Ok(e) && g < |e.jobs| && count > 0 && first + count <= Cards(e.p)
    ensures
      var area := D.Bytes(CallAt(e, g), first, count);
      var base := if HalfNo(e.p, g) == 0 then 0 else D.SMALL_BUFF_SIZE / 2;
      base <= area.off && area.off + area.len <= base + D.SMALL_BUFF_SIZE / 2
  {
    var call := CallAt(e, g);
    D.BlockInHalf(e.p.lg, call, first + count - 1);
    TimesAdds(first, count, call.size);
    TimesAdds(first + count - 1, 1, call.size);
    assert Times(1, call.size) == call.size;
  }

  /** A block of another half, or of the same call but not written, keeps its bytes. */
  lemma BlockKept<T>(e: Env<T>, m: nat -> T, m': nat -> T, g: nat, first: nat, count: nat, h: nat, b: nat, t: Term,
      x: nat)
    requires Ok(e) && g < |e.jobs| && h < |e.jobs| && count > 0 && first + count <= Cards(e.p) && b < Cards(e.p)
    requires Wrote(m, m', D.Bytes(CallAt(e, g), first, count)) && BlockShown(e, m, h, b, t, x)
    requires HalfNo(e.p, g) != HalfNo(e.p, h) || (g == h && !(first <= b < first + count))
    ensures BlockShown(e, m', h, b, t, x)
  {
    AreaInHalf(e, g, first, count);
    D.BlockInHalf(e.p.lg, CallAt(e, h), b);
    D.BlocksCovered(CallAt(e, g), first, count, b);
    assert Times(1, e.jobs[h].size) == e.jobs[h].size;
  }

  ghost predicate BlocksShown<T>(e: Env<T>, m: nat -> T, g: nat, bs: map<nat, Term>)
    requires g < |e.jobs| == |e.p.kinds|
  {
    forall b: nat, x: nat :: b in bs ==> BlockShown(e, m, g, b, bs[b], x)
  }

  /** Some blocks of call g are written. */
  lemma WriteShown<T>(e: Env<T>, half: Half, other: Half, m: nat -> T, g: nat, first: nat, count: nat,
      bs: map<nat, Term>, m': nat -> T)
    requires Ok(e) && g < |e.jobs| && count > 0 && first + count <= Cards(e.p)
    requires HalfShown(e, half, HalfNo(e.p, g), m) && HalfShown(e, other, 1 - HalfNo(e.p, g), m)
    requires forall b :: b in bs <==> first <= b < first + count
    requires Wrote(m, m', D.Bytes(CallAt(e, g), first, count)) && BlocksShown(e, m', g, bs)
    ensures HalfShown(e, Write(half, g, bs), HalfNo(e.p, g), m') && HalfShown(e, other, 1 - HalfNo(e.p, g), m')
  {
    var (h, half') := (HalfNo(e.p, g), Write(half, g, bs));
    forall b: nat, x: nat | b < Cards(e.p) && b in half'.blocks ensures BlockShown(e, m', g, b, half'.blocks[b], x) {
      if b in bs {
        assert BlockShown(e, m', g, b, bs[b], x);
      } else {
        BlockKept(e, m, m', g, first, count, g, b, half.blocks[b], x);
      }
    }
    forall b: nat, x: nat |
      other.call < |e.jobs| && HalfNo(e.p, other.call) == 1 - h && b < Cards(e.p) && b in other.blocks
      ensures BlockShown(e, m', other.call, b, other.blocks[b], x)
    {
      BlockKept(e, m, m', g, first, count, other.call, b, other.blocks[b], x);
    }
  }

  /** What is read of an intact block. */
  lemma ReadShown<T>(e: Env<T>, half: Half, m: nat -> T, g: nat, b: nat, x: nat)
    requires Ok(e) && g < |e.jobs| && HalfShown(e, half, HalfNo(e.p, g), m) && b < Cards(e.p)
    ensures BlockShown(e, m, g, b, Read(half, g, b), x)
  {
    if half.call == g && b in half.blocks { assert BlockShown(e, m, g, b, half.blocks[b], x); }
  }

  lemma BlocksAre<T>(e: Env<T>, half: Half, m: nat -> T, g: nat, blocks: seq<nat>, ts: seq<Term>, x: nat)
    requires Ok(e) && g < |e.jobs| && HalfShown(e, half, HalfNo(e.p, g), m) && |ts| == |blocks| && x < e.jobs[g].size
    requires forall j :: 0 <= j < |blocks| ==> blocks[j] < Cards(e.p) && ts[j] == Read(half, g, blocks[j])
    requires forall j :: 0 <= j < |ts| ==> Clean(ts[j])
    ensures BlockBytes(m, CallAt(e, g), blocks, x) == Evals(ts, e.plus, Inputs(e, x), e.junk)
  {
    var xs := BlockBytes(m, CallAt(e, g), blocks, x);
    forall j | 0 <= j < |blocks| ensures xs[j] == Val(e, ts[j], x) { ReadShown(e, half, m, g, blocks[j], x); }
  }

  /** A list of blocks reduced on the device is the fold of what they stand for. */
  lemma FoldShown<T>(e: Env<T>, half: Half, m: nat -> T, g: nat, blocks: seq<nat>, ts: seq<Term>, x: nat)
    requires Ok(e) && g < |e.jobs| && HalfShown(e, half, HalfNo(e.p, g), m) && blocks != [] && |ts| == |blocks|
    requires forall j :: 0 <= j < |blocks| ==> blocks[j] < Cards(e.p) && ts[j] == Read(half, g, blocks[j])
    requires x < e.jobs[g].size && Clean(FoldTerms(ts))
    ensures Folded(e.plus, m, CallAt(e, g), blocks)(x) == Val(e, FoldTerms(ts), x)
  {
    EvalFold(ts, e.plus, Inputs(e, x), e.junk);
    BlocksAre(e, half, m, g, blocks, ts, x);
  }

  // ---- stage by stage ------------------------------------------------------------------------------

  function ExecAll<T>(e: Env<T>, w: World<T>, c: nat, g: nat, xs: seq<D.Op>): (w': World<T>)
    requires Ok(e) && Sized(Cards(e.p), w) && c < Cards(e.p) && g < |e.jobs|
    ensures Sized(Cards(e.p), w')
    decreases |xs|
  {
    if xs == [] then w
    else ExecAll(e, Exec(Cards(e.p), w, c, g, CallAt(e, g), e.jobs[g], e.plus, xs[0]), c, g, xs[1..])
  }

  /** What card c does at `pc`: it executes its graph nodes. */
  function Run1<T>(e: Env<T>, pc: Pc, w: World<T>, c: nat): (w': World<T>)
    requires Ok(e) && Sized(Cards(e.p), w) && c < Cards(e.p) && pc.k < Rounds(e.p)
    ensures Sized(Cards(e.p), w')
  {
    CallInRange(e.p, pc.k);
    var g := CallNo(e.p.lg, pc.k);
    ExecAll(e, w, c, g, StageOps(e.p, c, pc, CallAt(e, g)))
  }

  lemma ExecOne<T>(e: Env<T>, w: World<T>, c: nat, g: nat, op: D.Op)
    requires Ok(e) && Sized(Cards(e.p), w) && c < Cards(e.p) && g < |e.jobs|
    ensures ExecAll(e, w, c, g, [op]) == Exec(Cards(e.p), w, c, g, CallAt(e, g), e.jobs[g], e.plus, op)
  {
  }

  lemma CntStep<T>(e: Env<T>, pc: Pc, cnt: nat -> nat)
    requires Ok(e) && pc.k < Rounds(e.p) && pc.st != Load && CntShown(e, pc, cnt)
    ensures CntShown(e, Advance(e.p, pc), cnt)
  {
    NextRound(e.p.lg, pc.k);
  }

  /** One half of one card's buffer changes, as card c goes on. */
  lemma MemSim<T>(e: Env<T>, s: State, w: World<T>, s': State, w': World<T>, c: nat, d: nat, h: nat, half': Half)
    requires Ok(e) && Sim(e, s, w) && Shape(e.p, s') && Sized(Cards(e.p), w')
    requires c < Cards(e.p) && d < Cards(e.p) && h < 2
    requires s'.pc == s.pc[c := s'.pc[c]] && s'.slot == w'.slot && s'.user == s.user && w'.recv == w.recv
    requires s'.mem == s.mem[d := SetHalf(s.mem[d], h, half')] && w'.mem == w.mem[d := w'.mem[d]]
    requires HalfShown(e, half', h, w'.mem[d]) && HalfShown(e, s.mem[d][1 - h], 1 - h, w'.mem[d])
    requires w'.cnt == w.cnt[c := w'.cnt[c]] && CntShown(e, s'.pc[c], w'.cnt[c])
    ensures Sim(e, s', w')
  {
    forall b | 0 <= b < Cards(e.p) ensures CardShown(e, s', w', b) { assert CardShown(e, s, w, b); }
  }

  lemma SameSim<T>(e: Env<T>, s: State, w: World<T>, s': State, w': World<T>, c: nat)
    requires Ok(e) && Sim(e, s, w) && Shape(e.p, s') && Sized(Cards(e.p), w') && c < Cards(e.p)
    requires s'.pc == s.pc[c := s'.pc[c]] && s'.slot == w'.slot && s'.mem == s.mem && w'.mem == w.mem
    requires s'.user == s.user[c := s'.user[c]] && w'.recv == w.recv[c := w'.recv[c]]
    requires UserShown(e, s'.user[c], w'.recv[c])
    requires w'.cnt == w.cnt && CntShown(e, s'.pc[c], w.cnt[c])
    ensures Sim(e, s', w')
  {
    forall b | 0 <= b < Cards(e.p) ensures CardShown(e, s', w', b) { assert CardShown(e, s, w, b); }
  }

  lemma LoadSim<T>(e: Env<T>, s: State, w: World<T>, c: nat)
    requires Ok(e) && Sim(e, s, w) && At(e.p, s, c) && s.pc[c].st == Load
    ensures Sim(e, Apply(e.p, s, c), Run1(e, s.pc[c], w, c))
  {
    var k := s.pc[c].k;
    var g := CallNo(e.p.lg, k);
    CallInRange(e.p, k);
    var (h, first) := (HalfNo(e.p, g), e.p.peercnt + Start(e.p.lg, g));
    var (s', w') := (Apply(e.p, s, c), Run1(e, s.pc[c], w, c));
    ExecOne(e, w, c, g, D.LoadOwn(c, first));
    assert CardShown(e, s, w, c);
    LoadShown(e, s.mem[c][h], s.mem[c][1 - h], w.mem[c], g, c, w'.mem[c]);
    MemSim(e, s, w, s', w', c, c, h, Write(s.mem[c][h], g, map[c := Leaf(c, g, 0)]));
  }

  lemma LoadShown<T>(e: Env<T>, half: Half, other: Half, m: nat -> T, g: nat, c: nat, m': nat -> T)
    requires Ok(e) && g < |e.jobs| && c < Cards(e.p)
    requires HalfShown(e, half, HalfNo(e.p, g), m) && HalfShown(e, other, 1 - HalfNo(e.p, g), m)
    requires
      var job := e.jobs[g];
      m' == Copied(m, D.Bytes(CallAt(e, g), c, 1).off, job.size,
                   (u: nat) => Local(e.plus, job.rankNum, job.send, c, u), 0)
    ensures HalfShown(e, Write(half, g, map[c := Leaf(c, g, 0)]), HalfNo(e.p, g), m')
    ensures HalfShown(e, other, 1 - HalfNo(e.p, g), m')
  {
    var job := e.jobs[g];
    var from := (u: nat) => Local(e.plus, job.rankNum, job.send, c, u);
    assert forall x: nat :: from(x) == Val(e, Leaf(c, g, 0), x);
    OneBlock(e, half, other, m, g, c, Leaf(c, g, 0), from, m');
  }

  /** One block is written. */
  lemma OneBlock<T>(e: Env<T>, half: Half, other: Half, m: nat -> T, g: nat, c: nat, t: Term, from: nat -> T,
      m': nat -> T)
    requires Ok(e) && g < |e.jobs| && c < Cards(e.p)
    requires HalfShown(e, half, HalfNo(e.p, g), m) && HalfShown(e, other, 1 - HalfNo(e.p, g), m)
    requires m' == Copied(m, D.Bytes(CallAt(e, g), c, 1).off, e.jobs[g].size, from, 0)
    requires forall x: nat :: x < e.jobs[g].size && Clean(t) ==> from(x) == Val(e, t, x)
    ensures HalfShown(e, Write(half, g, map[c := t]), HalfNo(e.p, g), m')
    ensures HalfShown(e, other, 1 - HalfNo(e.p, g), m')
  {
    assert Times(1, e.jobs[g].size) == e.jobs[g].size;
    forall x: nat ensures BlockShown(e, m', g, c, t, x) { }
    WriteShown(e, half, other, m, g, c, 1, map[c := t], m');
  }

  lemma PushRuns<T>(e: Env<T>, pc: Pc, w: World<T>, c: nat, g: nat, i: nat, first: nat, count: nat)
    requires Ok(e) && Sized(Cards(e.p), w) && c < Cards(e.p) && pc.k < Rounds(e.p) && pc.st == Push
    requires g == CallNo(e.p.lg, pc.k) < |e.jobs| && i == Dim(e.p.lg, pc.k) && Flip(c, i) < Cards(e.p)
    requires first == D.First(e.p.kinds[g], e.p.lg, c, i) && count == D.Width(e.p.kinds[g], e.p.lg, i)
    ensures
      var (area, to) := (D.Bytes(CallAt(e, g), first, count), Flip(c, i));
      Run1(e, pc, w, c) == w.(mem := w.mem[to := Copied(w.mem[to], area.off, area.len, w.mem[c], area.off)])
  {
    ExecOne(e, w, c, g, D.P2p(D.Bytes(CallAt(e, g), first, count), Flip(c, i)));
  }

  lemma PushSim<T>(e: Env<T>, s: State, w: World<T>, c: nat)
    requires Ok(e) && Sim(e, s, w) && At(e.p, s, c) && s.pc[c].st == Push
    ensures Sim(e, Apply(e.p, s, c), Run1(e, s.pc[c], w, c))
  {
    var k := s.pc[c].k;
    var (g, i) := (CallNo(e.p.lg, k), Dim(e.p.lg, k));
    CallInRange(e.p, k);
    FlipInRange(c, i, e.p.lg);
    var (h, kind, to) := (HalfNo(e.p, g), e.p.kinds[g], Flip(c, i));
    var (first, count) := (D.First(kind, e.p.lg, c, i), D.Width(kind, e.p.lg, i));
    PushRuns(e, s.pc[c], w, c, g, i, first, count);
    assert CardShown(e, s, w, c) && CardShown(e, s, w, to);
    GroupInRange(c, i, e.p.lg);
    var m' := Run1(e, s.pc[c], w, c).mem[to];
    PushShown(e, s.mem[c][h], w.mem[c], s.mem[to][h], s.mem[to][1 - h], w.mem[to], g, first, count, m');
    CntStep(e, s.pc[c], w.cnt[c]);
    PushedSim(e, s, w, c, g, first, count, m');
  }

  lemma PushedSim<T>(e: Env<T>, s: State, w: World<T>, c: nat, g: nat, first: nat, count: nat, m': nat -> T)
    requires Ok(e) && Sim(e, s, w) && At(e.p, s, c) && s.pc[c].st == Push && g == CallNo(e.p.lg, s.pc[c].k) < |e.jobs|
    requires Flip(c, Dim(e.p.lg, s.pc[c].k)) < Cards(e.p)
    requires
      var (h, i, kind) := (HalfNo(e.p, g), Dim(e.p.lg, s.pc[c].k), KindOf(e.p, s.pc[c].k));
      var to := Flip(c, i);
      && first == D.First(kind, e.p.lg, c, i) && count == D.Width(kind, e.p.lg, i)
      && HalfShown(e, Write(s.mem[to][h], g, Payload(s.mem[c][h], g, first, count)), h, m')
      && HalfShown(e, s.mem[to][1 - h], 1 - h, m')
    requires CntShown(e, Advance(e.p, s.pc[c]), w.cnt[c])
    ensures Sim(e, Apply(e.p, s, c), w.(mem := w.mem[Flip(c, Dim(e.p.lg, s.pc[c].k)) := m']))
  {
    var (h, to) := (HalfNo(e.p, g), Flip(c, Dim(e.p.lg, s.pc[c].k)));
    MemSim(e, s, w, Apply(e.p, s, c), w.(mem := w.mem[to := m']), c, to, h,
           Write(s.mem[to][h], g, Payload(s.mem[c][h], g, first, count)));
  }

  lemma PushShown<T>(e: Env<T>, own: Half, from: nat -> T, half: Half, other: Half, m: nat -> T, g: nat, first: nat,
      count: nat, m': nat -> T)
    requires Ok(e) && g < |e.jobs| && count > 0 && first + count <= Cards(e.p)
    requires HalfShown(e, own, HalfNo(e.p, g), from)
    requires HalfShown(e, half, HalfNo(e.p, g), m) && HalfShown(e, other, 1 - HalfNo(e.p, g), m)
    requires
      var area := D.Bytes(CallAt(e, g), first, count);
      m' == Copied(m, area.off, area.len, from, area.off)
    ensures HalfShown(e, Write(half, g, Payload(own, g, first, count)), HalfNo(e.p, g), m')
    ensures HalfShown(e, other, 1 - HalfNo(e.p, g), m')
  {
    var bs := Payload(own, g, first, count);
    forall b: nat, x: nat | b in bs ensures BlockShown(e, m', g, b, bs[b], x) {
      D.BlocksCovered(CallAt(e, g), first, count, b);
      ReadShown(e, own, from, g, b, x);
      assert Times(1, e.jobs[g].size) == e.jobs[g].size;
    }
    WriteShown(e, half, other, m, g, first, count, bs, m');
  }

  lemma FlagSim<T>(e: Env<T>, s: State, w: World<T>, c: nat)
    requires Ok(e) && Sim(e, s, w) && At(e.p, s, c) && (s.pc[c].st == Flag || s.pc[c].st == Await)
    ensures Sim(e, Apply(e.p, s, c), Run1(e, s.pc[c], w, c))
  {
    var k := s.pc[c].k;
    var (g, i) := (CallNo(e.p.lg, k), Dim(e.p.lg, k));
    CallInRange(e.p, k);
    RoundOf(e.p.lg, k);
    var (s', w') := (Apply(e.p, s, c), Run1(e, s.pc[c], w, c));
    ExecOne(e, w, c, g, StageOps(e.p, c, s.pc[c], CallAt(e, g))[0]);
    assert CardShown(e, s, w, c);
    CntStep(e, s.pc[c], w.cnt[c]);
    SameSim(e, s, w, s', w', c);
  }

  /** The blocks that the reduction after round i reads, and what the machine finds in them. */
  lemma Operands<T>(e: Env<T>, half: Half, g: nat, c: nat, i: nat) returns (blocks: seq<nat>, ts: seq<Term>)
    requires Ok(e) && g < |e.jobs| && c < Cards(e.p) && i < e.p.lg
    requires Reduces(e.p.kinds[g], e.p.lg, i) || i + 1 == e.p.lg
    ensures blocks != [] && |ts| == |blocks|
    ensures forall j :: 0 <= j < |blocks| ==> blocks[j] < Cards(e.p) && ts[j] == Read(half, g, blocks[j])
    ensures
      var (kind, lg) := (e.p.kinds[g], e.p.lg);
      if i + 1 == lg then
        D.FoldOps(kind, lg, c, i) == [D.ReduceToUsers(blocks)] && Final(kind, lg, half, g, c, i) == FoldTerms(ts)
      else
        D.FoldOps(kind, lg, c, i) == [D.ReduceInto(blocks, c)] && Reduced(kind, lg, half, g, c, i) == FoldTerms(ts)
  {
    var (kind, lg) := (e.p.kinds[g], e.p.lg);
    if kind == D.GatherAll {
      blocks, ts := D.Blocks(0, Pow2(lg)), ReadAll(half, g, 0, Pow2(lg));
    } else if kind == D.GatherHalf && i + 1 < lg {
      GroupInRange(c, i + 1, lg);
      blocks, ts := D.Blocks(Base(c, i + 1), Pow2(i + 1)), ReadAll(half, g, Base(c, i + 1), Pow2(i + 1));
    } else {
      FlipInRange(c, i, lg);
      blocks, ts := [c, Flip(c, i)], [Read(half, g, c), Read(half, g, Flip(c, i))];
      assert ts[..1] == [ts[0]];
    }
  }

  lemma ReduceRuns<T>(e: Env<T>, pc: Pc, w: World<T>, c: nat, g: nat, i: nat, blocks: seq<nat>)
    requires Ok(e) && Sized(Cards(e.p), w) && c < Cards(e.p) && pc.k < Rounds(e.p) && pc.st == Fold && blocks != []
    requires g == CallNo(e.p.lg, pc.k) < |e.jobs| && i == Dim(e.p.lg, pc.k)
    requires D.FoldOps(e.p.kinds[g], e.p.lg, c, i) == [D.ReduceInto(blocks, c)]
    ensures Run1(e, pc, w, c) ==
            w.(mem := w.mem[c := Copied(w.mem[c], D.Bytes(CallAt(e, g), c, 1).off, e.jobs[g].size,
                                        Folded(e.plus, w.mem[c], CallAt(e, g), blocks), 0)])
  {
    ExecOne(e, w, c, g, D.ReduceInto(blocks, c));
  }

  lemma ReduceSim<T>(e: Env<T>, s: State, w: World<T>, c: nat)
    requires Ok(e) && Sim(e, s, w) && At(e.p, s, c) && s.pc[c].st == Fold
    requires
      var i := Dim(e.p.lg, s.pc[c].k);
      Reduces(KindOf(e.p, s.pc[c].k), e.p.lg, i) && i + 1 < e.p.lg
    ensures Sim(e, Apply(e.p, s, c), Run1(e, s.pc[c], w, c))
  {
    var k := s.pc[c].k;
    var (g, i) := (CallNo(e.p.lg, k), Dim(e.p.lg, k));
    CallInRange(e.p, k);
    var (half, other) := (s.mem[c][HalfNo(e.p, g)], s.mem[c][1 - HalfNo(e.p, g)]);
    assert CardShown(e, s, w, c);
    var blocks, ts := Operands(e, half, g, c, i);
    ReduceRuns(e, s.pc[c], w, c, g, i, blocks);
    var m' := Run1(e, s.pc[c], w, c).mem[c];
    ReducedShown(e, half, other, w.mem[c], g, c, blocks, ts, m');
    CntStep(e, s.pc[c], w.cnt[c]);
    ReducedSim(e, s, w, c, g, FoldTerms(ts), m');
  }

  lemma ReducedSim<T>(e: Env<T>, s: State, w: World<T>, c: nat, g: nat, t: Term, m': nat -> T)
    requires Ok(e) && Sim(e, s, w) && At(e.p, s, c) && s.pc[c].st == Fold && g == CallNo(e.p.lg, s.pc[c].k) < |e.jobs|
    requires
      var (h, i, kind) := (HalfNo(e.p, g), Dim(e.p.lg, s.pc[c].k), KindOf(e.p, s.pc[c].k));
      && Reduces(kind, e.p.lg, i) && i + 1 < e.p.lg && t == Reduced(kind, e.p.lg, s.mem[c][h], g, c, i)
      && HalfShown(e, Write(s.mem[c][h], g, map[c := t]), h, m') && HalfShown(e, s.mem[c][1 - h], 1 - h, m')
    requires CntShown(e, Advance(e.p, s.pc[c]), w.cnt[c])
    ensures Sim(e, Apply(e.p, s, c), w.(mem := w.mem[c := m']))
  {
    var h := HalfNo(e.p, g);
    MemSim(e, s, w, Apply(e.p, s, c), w.(mem := w.mem[c := m']), c, c, h, Write(s.mem[c][h], g, map[c := t]));
  }

  lemma ReducedShown<T>(e: Env<T>, half: Half, other: Half, m: nat -> T, g: nat, c: nat, blocks: seq<nat>,
      ts: seq<Term>, m': nat -> T)
    requires Ok(e) && g < |e.jobs| && c < Cards(e.p) && blocks != [] && |ts| == |blocks|
    requires forall j :: 0 <= j < |blocks| ==> blocks[j] < Cards(e.p) && ts[j] == Read(half, g, blocks[j])
    requires HalfShown(e, half, HalfNo(e.p, g), m) && HalfShown(e, other, 1 - HalfNo(e.p, g), m)
    requires m' == Copied(m, D.Bytes(CallAt(e, g), c, 1).off, e.jobs[g].size,
                          Folded(e.plus, m, CallAt(e, g), blocks), 0)
    ensures HalfShown(e, Write(half, g, map[c := FoldTerms(ts)]), HalfNo(e.p, g), m')
    ensures HalfShown(e, other, 1 - HalfNo(e.p, g), m')
  {
    var (t, from) := (FoldTerms(ts), Folded(e.plus, m, CallAt(e, g), blocks));
    forall x: nat | x < e.jobs[g].size && Clean(t) ensures from(x) == Val(e, t, x) {
      FoldShown(e, half, m, g, blocks, ts, x);
    }
    OneBlock(e, half, other, m, g, c, t, from, m');
  }

  lemma FinalSim<T>(e: Env<T>, s: State, w: World<T>, c: nat)
    requires Ok(e) && Sim(e, s, w) && At(e.p, s, c) && s.pc[c].st == Fold
    requires
      var i := Dim(e.p.lg, s.pc[c].k);
      i + 1 == e.p.lg || !Reduces(KindOf(e.p, s.pc[c].k), e.p.lg, i)
    ensures Sim(e, Apply(e.p, s, c), Run1(e, s.pc[c], w, c))
  {
    var k := s.pc[c].k;
    CallInRange(e.p, k);
    assert CardShown(e, s, w, c);
    CntStep(e, s.pc[c], w.cnt[c]);
    if Dim(e.p.lg, k) + 1 == e.p.lg { LastFold(e, s, w, c, CallNo(e.p.lg, k), Dim(e.p.lg, k)); }
    SameSim(e, s, w, Apply(e.p, s, c), Run1(e, s.pc[c], w, c), c);
  }

  /** The last reduction of a call goes to the users. */
  lemma LastFold<T>(e: Env<T>, s: State, w: World<T>, c: nat, g: nat, i: nat)
    requires Ok(e) && Sim(e, s, w) && At(e.p, s, c) && s.pc[c].st == Fold
    requires g == CallNo(e.p.lg, s.pc[c].k) < |e.jobs| && i == Dim(e.p.lg, s.pc[c].k) && i + 1 == e.p.lg
    ensures
      var (s', w') := (Apply(e.p, s, c), Run1(e, s.pc[c], w, c));
      && w' == w.(recv := w.recv[c := w'.recv[c]])
      && UserShown(e, s'.user[c], w'.recv[c])
  {
    var (half, w') := (s.mem[c][HalfNo(e.p, g)], Run1(e, s.pc[c], w, c));
    assert CardShown(e, s, w, c);
    var blocks, ts := Operands(e, half, g, c, i);
    ExecOne(e, w, c, g, D.ReduceToUsers(blocks));
    GivenShown(e, half, w.mem[c], g, blocks, ts, s.user[c], w.recv[c], w'.recv[c]);
  }

  lemma GivenShown<T>(e: Env<T>, half: Half, m: nat -> T, g: nat, blocks: seq<nat>, ts: seq<Term>, u: map<nat, Term>,
      v: (nat, nat, nat) -> T, v': (nat, nat, nat) -> T)
    requires Ok(e) && g < |e.jobs| && blocks != [] && |ts| == |blocks| && UserShown(e, u, v)
    requires forall j :: 0 <= j < |blocks| ==> blocks[j] < Cards(e.p) && ts[j] == Read(half, g, blocks[j])
    requires HalfShown(e, half, HalfNo(e.p, g), m)
    requires v' == Given(v, g, 0, e.jobs[g].rankNum, 0, e.jobs[g].size, Folded(e.plus, m, CallAt(e, g), blocks), 0)
    ensures UserShown(e, u[g := FoldTerms(ts)], v')
  {
    var u' := u[g := FoldTerms(ts)];
    forall q: nat, i: nat, x: nat ensures UserByte(e, u', v', q, i, x) {
      if q == g {
        if x < e.jobs[g].size && Clean(FoldTerms(ts)) { FoldShown(e, half, m, g, blocks, ts, x); }
      } else {
        assert UserByte(e, u, v, q, i, x);
      }
    }
  }

  /** A card that executes the graph nodes of a stage does what the machine's card does. */
  lemma StageSim<T>(e: Env<T>, s: State, w: World<T>, c: nat)
    requires Ok(e) && Sim(e, s, w) && At(e.p, s, c)
    ensures Sim(e, Apply(e.p, s, c), Run1(e, s.pc[c], w, c))
  {
    match s.pc[c].st
    case Load => LoadSim(e, s, w, c);
    case Push => PushSim(e, s, w, c);
    case Fold =>
      var i := Dim(e.p.lg, s.pc[c].k);
      if Reduces(KindOf(e.p, s.pc[c].k), e.p.lg, i) && i + 1 < e.p.lg {
        ReduceSim(e, s, w, c);
      } else {
        FinalSim(e, s, w, c);
      }
    case _ => FlagSim(e, s, w, c);
  }

  // ---- whole runs ------------------------------------------------------------------------------------

  /** Where every card is in its graphs, and what the nodes so far have done. */
  datatype Config<T> = Config(pc: seq<Pc>, w: World<T>)

  ghost predicate Busy<T>(e: Env<T>, k: Config<T>, c: nat)
    requires Ok(e)
  {
    |k.pc| == Cards(e.p) && Sized(Cards(e.p), k.w) && c < Cards(e.p) && k.pc[c].k < Rounds(e.p) && PcOk(e.p, k.pc[c])
  }

  function OpsAt<T>(e: Env<T>, k: Config<T>, c: nat): seq<D.Op>
    requires Ok(e) && Busy(e, k, c)
  {
    CallInRange(e.p, k.pc[c].k);
    StageOps(e.p, c, k.pc[c], CallAt(e, CallNo(e.p.lg, k.pc[c].k)))
  }

  ghost predicate Free<T>(e: Env<T>, k: Config<T>, c: nat)
    requires Ok(e) && Busy(e, k, c)
  {
    forall i :: 0 <= i < |OpsAt(e, k, c)| ==> Passes(Cards(e.p), k.w, c, OpsAt(e, k, c)[i])
  }

  ghost predicate Goes<T>(e: Env<T>, k: Config<T>, k': Config<T>)
    requires Ok(e)
  {
    exists c: nat :: Busy(e, k, c) && Free(e, k, c) && k' == After(e, k, c)
  }

  function After<T>(e: Env<T>, k: Config<T>, c: nat): Config<T>
    requires Ok(e) && Busy(e, k, c)
  {
    Config(k.pc[c := Advance(e.p, k.pc[c])], Run1(e, k.pc[c], k.w, c))
  }

  /** Any buffer contents, any flags that peercnt has reached. */
  ghost predicate Starts<T>(e: Env<T>, k: Config<T>)
    requires Ok(e)
  {
    && |k.pc| == Cards(e.p) && Sized(Cards(e.p), k.w)
    && (forall c :: 0 <= c < Cards(e.p) ==> k.pc[c] == Pc(0, Load))
    && (forall c, q :: 0 <= c < Cards(e.p) && 0 <= q < D.DEV_NUM ==> k.w.slot[c][q] <= e.p.peercnt)
  }

  ghost predicate GraphRun<T>(e: Env<T>, tr: seq<Config<T>>)
    requires Ok(e)
  {
    tr != [] && Starts(e, tr[0]) && forall i :: 0 < i < |tr| ==> Goes(e, tr[i - 1], tr[i])
  }

  lemma WaitsAgree<T>(e: Env<T>, s: State, k: Config<T>, c: nat)
    requires Ok(e) && Sim(e, s, k.w) && s.pc == k.pc && Busy(e, k, c)
    ensures At(e.p, s, c) && (Free(e, k, c) <==> Enabled(e.p, s, c))
  {
    if k.pc[c].st == Await {
      assert OpsAt(e, k, c)[0] == D.WaitGeq(SlotNo(e.p, k.pc[c].k), e.p.peercnt + k.pc[c].k + 1);
    }
    if k.pc[c].st == Fold { NoWaits(e, k, c); }
  }

  lemma NoWaits<T>(e: Env<T>, k: Config<T>, c: nat)
    requires Ok(e) && Busy(e, k, c) && k.pc[c].st == Fold
    ensures Free(e, k, c)
  {
  }

  function Empty<T>(e: Env<T>, k: Config<T>): State {
    var none := Half(0, map[]);
    State(k.pc, k.w.slot, seq(Cards(e.p), _ => [none, none]), seq(Cards(e.p), _ => map[]))
  }

  /** Every run of the graphs is a run of the machine, byte by byte. */
  lemma {:induction false} Simulated<T>(e: Env<T>, tr: seq<Config<T>>) returns (abs: seq<State>)
    requires Ok(e) && GraphRun(e, tr)
    ensures abs != [] && T.Run(e.p, abs) && abs[|abs| - 1].pc == tr[|tr| - 1].pc
    ensures Sim(e, abs[|abs| - 1], tr[|tr| - 1].w)
    decreases |tr|
  {
    if |tr| == 1 {
      abs := [Empty(e, tr[0])];
      forall c | 0 <= c < Cards(e.p) ensures CardShown(e, abs[0], tr[0].w, c) { }
    } else {
      var (before, k) := (tr[..|tr| - 1], tr[|tr| - 2]);
      abs := Simulated(e, before);
      assert Goes(e, tr[|tr| - 2], tr[|tr| - 1]);
      var c: nat :| Busy(e, k, c) && Free(e, k, c) && tr[|tr| - 1] == After(e, k, c);
      var s := abs[|abs| - 1];
      WaitsAgree(e, s, k, c);
      StageSim(e, s, k.w, c);
      RunGrows(e.p, abs, c);
      abs := abs + [Apply(e.p, s, c)];
    }
  }

  lemma RunGrows(p: Cube, abs: seq<State>, c: nat)
    requires Valid(p) && abs != [] && T.Run(p, abs) && At(p, abs[|abs| - 1], c) && Enabled(p, abs[|abs| - 1], c)
    requires Shape(p, Apply(p, abs[|abs| - 1], c))
    ensures T.Run(p, abs + [Apply(p, abs[|abs| - 1], c)])
  {
    var (s, longer) := (abs[|abs| - 1], abs + [Apply(p, abs[|abs| - 1], c)]);
    assert T.Step(p, s, Apply(p, s, c));
    forall i | 0 < i < |longer| ensures T.Step(p, longer[i - 1], longer[i]) {
      if i < |abs| { assert T.Step(p, abs[i - 1], abs[i]); }
    }
  }

  /** What the ranks of every card have at byte x, reduced on each card. */
  function CardSums<T>(e: Env<T>, g: nat, x: nat): (xs: seq<T>)
    requires Ok(e) && g < |e.jobs|
    ensures |xs| == Cards(e.p)
  {
    seq(Cards(e.p), k requires 0 <= k < Cards(e.p) => Local(e.plus, e.jobs[g].rankNum, e.jobs[g].send, k, x))
  }

  lemma {:induction false} OwnClean(kind: D.Kind, lg: nat, g: nat, c: nat, i: nat)
    ensures Clean(Data.Own(kind, lg, g, c, i))
    decreases i
  {
    if kind == D.EachRound && i > 0 {
      OwnClean(kind, lg, g, c, i - 1);
      OwnClean(kind, lg, g, Flip(c, i - 1), i - 1);
    }
    if kind == D.GatherHalf && i + 1 >= lg > 0 { LeavesClean(g, Base(c, lg - 1), Pow2(lg - 1)); }
  }

  lemma LeavesClean(g: nat, first: nat, count: nat)
    requires count > 0
    ensures Clean(FoldTerms(Data.Leaves(g, first, count)))
  {
    EvalFold(Data.Leaves(g, first, count), (a: int, b: int) => a, (a, b, d) => 0, 0);
  }

  lemma ResultClean(kind: D.Kind, lg: nat, g: nat, c: nat)
    requires lg > 0
    ensures Clean(Data.Result(kind, lg, g, c))
  {
    if kind == D.GatherAll {
      LeavesClean(g, 0, Pow2(lg));
    } else {
      OwnClean(kind, lg, g, c, lg - 1);
      OwnClean(kind, lg, g, Flip(c, lg - 1), lg - 1);
    }
  }

  /** The small AllReduce, with any of its three schedules, over any sequence of calls on 2, 4
      or 8 cards: when card c has executed the graph of call g, every rank of the card has the
      reduction over all ranks in each byte. */
  lemma GraphsAllReduce<T(!new)>(e: Env<T>, tr: seq<Config<T>>, c: nat, g: nat, i: nat, x: nat)
    requires Ok(e) && GraphRun(e, tr) && c < Cards(e.p) == |tr[|tr| - 1].pc| && g < |e.jobs|
    requires Start(e.p.lg, g + 1) <= tr[|tr| - 1].pc[c].k && i < e.jobs[g].rankNum && x < e.jobs[g].size
    requires e.p.kinds[g] == D.GatherAll || (Associative(e.plus) && Commutative(e.plus))
    ensures |tr[|tr| - 1].w.recv| == Cards(e.p)
    ensures tr[|tr| - 1].w.recv[c](g, i, x) == Reduce(e.plus, CardSums(e, g, x))
  {
    var abs := Simulated(e, tr);
    var (s, w, result) := (abs[|abs| - 1], tr[|tr| - 1].w, Data.Result(e.p.kinds[g], e.p.lg, g, c));
    T.DoublingDelivers(e.p, abs, c, g);
    ResultClean(e.p.kinds[g], e.p.lg, g, c);
    T.ResultIsReduction(e.p.kinds[g], e.p.lg, g, c, e.plus, Inputs(e, x), e.junk);
    assert T.InputsFrom(Inputs(e, x), g, 0, Pow2(e.p.lg)) == CardSums(e, g, x);
    assert CardShown(e, s, w, c) && UserByte(e, s.user[c], w.recv[c], g, i, x);
  }

  ghost predicate SomeoneFree<T>(e: Env<T>, k: Config<T>)
    requires Ok(e)
  {
    exists c: nat :: Busy(e, k, c) && Free(e, k, c)
  }

  /** As long as some card has nodes left, no wait holds every card up. */
  lemma GraphsNeverBlock<T>(e: Env<T>, tr: seq<Config<T>>, d: nat)
    requires Ok(e) && GraphRun(e, tr) && d < Cards(e.p) == |tr[|tr| - 1].pc| && tr[|tr| - 1].pc[d].k < Rounds(e.p)
    ensures SomeoneFree(e, tr[|tr| - 1])
  {
    var abs := Simulated(e, tr);
    var (s, k) := (abs[|abs| - 1], tr[|tr| - 1]);
    T.DoublingNeverDeadlocks(e.p, abs, d);
    var c: nat :| At(e.p, s, c) && Enabled(e.p, s, c);
    assert Busy(e, k, c);
    WaitsAgree(e, s, k, c);
  }
}
