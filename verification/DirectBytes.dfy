/** The streams of the direct AllReduce, executed operation by operation on the elements of
    buffers and users: whatever the interleaving, every user has every element reduced. */
module DirectBytes {
  import opened Arith
  import opened Bytes
  import opened Cycle
  import opened Terms
  import opened DirectAllReduce
  import opened DirectMachine
  import opened DirectTheorems

  /** The cards and their chunks, the call of every chunk, the ranks of a card, what they send
      (by call, and then card, rank of the card and element), the element operation, and a
      value for what nobody has written. */
  datatype Env<!T> = Env(p: Mesh, call: seq<nat>, ranks: nat, send: nat -> (nat, nat, nat) -> T, plus: (T, T) -> T,
    junk: T)

  /** Handshakes, counters sent and to be sent, cross buffers by half and element, and what
      the users of every card have received. */
  datatype World<T> = World(shake: seq<nat>, flag: seq<seq<nat>>, cnt: seq<nat>, inb: seq<(nat, nat) -> T>,
    out: seq<(nat, nat) -> T>, recv: seq<(nat, nat, nat) -> T>)

  predicate Sized<T>(n: nat, w: World<T>) {
    && |w.shake| == |w.flag| == |w.cnt| == |w.inb| == |w.out| == |w.recv| == n
    && forall c :: 0 <= c < n ==> |w.flag[c]| == n
  }

  // ---- what an operation does --------------------------------------------------------------

  /** `len` elements of `from` written into half h at `at`. */
  function CopiedHalf<T>(m: (nat, nat) -> T, h: nat, at: nat, len: nat, from: nat -> T, src: nat): (nat, nat) -> T {
    (q: nat, x: nat) => if q == h && at <= x < at + len then from(x - at + src) else m(q, x)
  }

  /** Element x of n slices that are `pitch` elements apart, the own one from inBuff. */
  function FoldAt<T>(n: nat, inb: (nat, nat) -> T, out: (nat, nat) -> T, h: nat, pitch: nat, own: nat,
      plus: (T, T) -> T, x: nat): T
    requires n > 0
  {
    Reduce(plus, seq(n, i requires 0 <= i < n =>
                          if i == own then inb(h, Times(i, pitch) + x) else out(h, Times(i, pitch) + x)))
  }

  /** Card c executes one operation of call `call`. */
  function Exec<T>(n: nat, w: World<T>, c: nat, call: nat, ranks: nat, send: (nat, nat, nat) -> T, plus: (T, T) -> T,
      op: Op): (w': World<T>)
    requires Sized(n, w) && c < n && ranks > 0
    ensures Sized(n, w')
  {
    match op
    case SendFlag(to, v) => if to >= n then w else w.(shake := w.shake[to := v])
    case LoadIn(h, user, count) =>
      w.(inb := w.inb[c := CopiedHalf(w.inb[c], h, 0, count, (u: nat) => Local(plus, ranks, send, c, u), user)])
    case SetCnt(v) => w.(cnt := w.cnt[c := v])
    case PushIn(h, src, to, dst, count) =>
      if to >= n then w
      else w.(out := w.out[to := CopiedHalf(w.out[to], h, dst, count, InHalf(w.inb[c], h), src)])
    case PushOut(h, at, to, count) =>
      if to >= n then w else w.(inb := w.inb[to := CopiedHalf(w.inb[to], h, at, count, InHalf(w.inb[c], h), at)])
    case SendCnt(to) => if to >= n then w else w.(flag := w.flag[to := SetFlag(w.flag[to], c, w.cnt[c])])
    case FoldSlices(h, pitch, own, count) =>
      w.(inb := w.inb[c := CopiedHalf(w.inb[c], h, Times(own, pitch), count,
                                      (x: nat) => FoldAt(n, w.inb[c], w.out[c], h, pitch, own, plus, x), 0)])
    case ToUsers(h, user, count) =>
      w.(recv := w.recv[c := Given(w.recv[c], call, 0, ranks, user, count, InHalf(w.inb[c], h), 0)])
    case _ => w
  }

  function InHalf<T>(m: (nat, nat) -> T, h: nat): nat -> T {
    (x: nat) => m(h, x)
  }

  predicate Passes<T>(n: nat, w: World<T>, c: nat, op: Op)
    requires Sized(n, w) && c < n
  {
    match op
    case WaitFlag(v) => w.shake[c] >= v
    case WaitCnt(from, v) => from < n && w.flag[c][from] >= v
    case _ => true
  }

  function ExecAll<T>(n: nat, w: World<T>, c: nat, call: nat, ranks: nat, send: (nat, nat, nat) -> T, plus: (T, T) -> T,
      ops: seq<Op>): (w': World<T>)
    requires Sized(n, w) && c < n && ranks > 0
    ensures Sized(n, w')
    decreases |ops|
  {
    if ops == [] then w
    else ExecAll(n, Exec(n, w, c, call, ranks, send, plus, ops[0]), c, call, ranks, send, plus, ops[1..])
  }

  lemma ExecOne<T>(n: nat, w: World<T>, c: nat, call: nat, ranks: nat, send: (nat, nat, nat) -> T, plus: (T, T) -> T,
      op: Op)
    requires Sized(n, w) && c < n && ranks > 0
    ensures ExecAll(n, w, c, call, ranks, send, plus, [op]) == Exec(n, w, c, call, ranks, send, plus, op)
  {
  }

  lemma ExecTwo<T>(n: nat, w: World<T>, c: nat, call: nat, ranks: nat, send: (nat, nat, nat) -> T, plus: (T, T) -> T,
      a: Op, b: Op)
    requires Sized(n, w) && c < n && ranks > 0
    ensures ExecAll(n, w, c, call, ranks, send, plus, [a, b]) ==
            Exec(n, Exec(n, w, c, call, ranks, send, plus, a), c, call, ranks, send, plus, b)
  {
    assert [a, b][1..] == [b];
    ExecOne(n, Exec(n, w, c, call, ranks, send, plus, a), c, call, ranks, send, plus, b);
  }

  // ---- what blocks stand for ----------------------------------------------------------------

  /** The slices of a chunk are those of its elements. */
  ghost predicate ChunkFits(n: nat, ch: Chunk) {
    ch.counts == Counts(n, ch.slice, ch.count) && ch.count <= Times(n, ch.slice)
  }

  /** Chunks of one call lie apart in the users' memory. */
  ghost predicate Apart<T>(e: Env<T>, k: nat, q: nat)
    requires k < |e.p.chunks| == |e.call| && q < |e.p.chunks|
  {
    var (a, b) := (e.p.chunks[k], e.p.chunks[q]);
    k != q && e.call[k] == e.call[q] ==> a.user + a.count <= b.user || b.user + b.count <= a.user
  }

  ghost predicate Ok<T>(e: Env<T>) {
    && Valid(e.p) && e.ranks > 0 && |e.call| == |e.p.chunks|
    && (forall k :: 0 <= k < |e.call| ==> ChunkFits(e.p.n, e.p.chunks[k]))
    && (forall k: nat, q: nat :: k < |e.call| && q < |e.call| ==> Apart(e, k, q))
  }

  /** Where slice j of chunk k begins in the users' memory. */
  function PlaceOf<T>(e: Env<T>, k: nat, j: nat): nat
    requires k < |e.p.chunks|
  {
    e.p.chunks[k].user + Times(j, e.p.chunks[k].slice)
  }

  /** Element x of slice j of chunk k, reduced over the ranks of card c. */
  function InputAt<T>(e: Env<T>, c: nat, k: nat, j: nat, x: nat): T {
    if k < |e.p.chunks| == |e.call| && e.ranks > 0 then
      Local(e.plus, e.ranks, e.send(e.call[k]), c, PlaceOf(e, k, j) + x)
    else e.junk
  }

  function InputsAt<T>(e: Env<T>, x: nat): (nat, nat, nat) -> T {
    (c: nat, k: nat, j: nat) => InputAt(e, c, k, j, x)
  }

  function Val<T>(e: Env<T>, t: Term, x: nat): T {
    Eval(t, e.plus, InputsAt(e, x), e.junk)
  }

  /** Elements of slot j, in the outBuff of card d, or in an inBuff if d is no card. */
  function LenOf<T>(e: Env<T>, k: nat, j: nat, d: nat): (len: nat)
    requires Ok(e) && k < |e.p.chunks| && j < e.p.n
    ensures len <= e.p.chunks[k].slice
  {
    var ch := e.p.chunks[k];
    assert ChunkFits(e.p.n, ch);
    if d < e.p.n then ch.counts[d] else ch.counts[j]
  }

  ghost predicate SlotShown<T>(e: Env<T>, t: Term, b: nat -> T, k: nat, j: nat, d: nat, x: nat)
    requires Ok(e)
  {
    k < |e.p.chunks| && j < e.p.n && x < LenOf(e, k, j, d) && Clean(t) ==>
      b(Times(j, e.p.chunks[k].slice) + x) == Val(e, t, x)
  }

  /** A half of a buffer holds the elements of the blocks in the machine's half. */
  ghost predicate HalfShown<T>(e: Env<T>, m: Half, b: nat -> T, d: nat)
    requires Ok(e)
  {
    forall j: nat, x: nat :: j in m.slots ==> SlotShown(e, m.slots[j], b, m.chunk, j, d, x)
  }

  ghost predicate BufferShown<T>(e: Env<T>, m: seq<Half>, b: (nat, nat) -> T, d: nat)
    requires Ok(e)
  {
    forall h: nat :: h < |m| ==> HalfShown(e, m[h], InHalf(b, h), d)
  }

  ghost predicate UserElement<T>(e: Env<T>, user: map<(nat, nat), Term>, recv: (nat, nat, nat) -> T, k: nat, j: nat,
      i: nat, x: nat)
    requires Ok(e)
  {
    (k, j) in user && k < |e.p.chunks| && j < e.p.n && i < e.ranks && x < e.p.chunks[k].counts[j]
    && Clean(user[(k, j)]) ==>
      recv(e.call[k], i, PlaceOf(e, k, j) + x) == Val(e, user[(k, j)], x)
  }

  ghost predicate UserShown<T>(e: Env<T>, user: map<(nat, nat), Term>, recv: (nat, nat, nat) -> T)
    requires Ok(e)
  {
    forall k: nat, j: nat, i: nat, x: nat :: UserElement(e, user, recv, k, j, i, x)
  }

  /** The counter that a card is about to send. */
  predicate CntShown(p: Mesh, pc: Pc, v: nat) {
    match pc.st
    case Push1(_) => v == FlagValue(p, pc.k, 1)
    case Flag1(_) => v == FlagValue(p, pc.k, 1)
    case Push2(_) => v == FlagValue(p, pc.k, 2)
    case Flag2(_) => v == FlagValue(p, pc.k, 2)
    case _ => true
  }

  ghost predicate CardShown<T>(e: Env<T>, s: State, w: World<T>, c: nat)
    requires Ok(e) && Shape(e.p, s) && Sized(e.p.n, w) && c < e.p.n
  {
    && BufferShown(e, s.inb[c], w.inb[c], e.p.n) && BufferShown(e, s.out[c], w.out[c], c)
    && UserShown(e, s.user[c], w.recv[c]) && CntShown(e.p, s.pc[c], w.cnt[c])
  }

  ghost predicate Sim<T>(e: Env<T>, s: State, w: World<T>)
    requires Ok(e)
  {
    && Shape(e.p, s) && Sized(e.p.n, w) && s.shake == w.shake && s.flag == w.flag
    && forall c :: 0 <= c < e.p.n ==> CardShown(e, s, w, c)
  }

  // ---- writing into a half ---------------------------------------------------------------------

  /** One slot is written; the others of its chunk stay. */
  lemma SlotWritten<T>(e: Env<T>, m: Half, b: nat -> T, b': nat -> T, k: nat, j: nat, d: nat, t: Term)
    requires Ok(e) && k < |e.p.chunks| && j < e.p.n && HalfShown(e, m, b, d)
    requires forall y: nat :: !(Times(j, e.p.chunks[k].slice) <= y < Times(j, e.p.chunks[k].slice) + LenOf(e, k, j, d))
               ==> b'(y) == b(y)
    requires forall x: nat :: SlotShown(e, t, b', k, j, d, x)
    ensures HalfShown(e, Write(m, k, j, t), b', d)
  {
    var m' := Write(m, k, j, t);
    forall i: nat, x: nat | i in m'.slots ensures SlotShown(e, m'.slots[i], b', m'.chunk, i, d, x) {
      if i != j {
        assert SlotShown(e, m.slots[i], b, k, i, d, x);
        if i < j { TimesStep(i, j, e.p.chunks[k].slice); } else { TimesStep(j, i, e.p.chunks[k].slice); }
      }
    }
  }

  /** Reading a slot. */
  lemma SlotRead<T>(e: Env<T>, m: Half, b: nat -> T, k: nat, j: nat, d: nat, x: nat)
    requires Ok(e) && HalfShown(e, m, b, d)
    ensures SlotShown(e, Read(m, k, j), b, k, j, d, x)
  {
    if m.chunk == k && j in m.slots { assert SlotShown(e, m.slots[j], b, k, j, d, x); }
  }

  /** A half is replaced, the other one stays. */
  lemma BufferWritten<T>(e: Env<T>, m: seq<Half>, b: (nat, nat) -> T, h: nat, m': Half, b': (nat, nat) -> T, d: nat)
    requires Ok(e) && BufferShown(e, m, b, d) && h < |m| && HalfShown(e, m', InHalf(b', h), d)
    requires forall q: nat, x: nat :: q != h ==> b'(q, x) == b(q, x)
    ensures BufferShown(e, SetHalf(m, h, m'), b', d)
  {
    forall q: nat | q < |m| ensures HalfShown(e, SetHalf(m, h, m')[q], InHalf(b', q), d) {
      if q != h {
        assert HalfShown(e, m[q], InHalf(b, q), d);
        forall j: nat, x: nat | j in m[q].slots
          ensures SlotShown(e, m[q].slots[j], InHalf(b', q), m[q].chunk, j, d, x)
        {
          assert SlotShown(e, m[q].slots[j], InHalf(b, q), m[q].chunk, j, d, x);
        }
      }
    }
  }

  lemma BufferSame<T>(e: Env<T>, m: seq<Half>, b: (nat, nat) -> T, b': (nat, nat) -> T, d: nat)
    requires Ok(e) && BufferShown(e, m, b, d) && forall q: nat, x: nat :: b'(q, x) == b(q, x)
    ensures BufferShown(e, m, b', d)
  {
    forall q: nat | q < |m| ensures HalfShown(e, m[q], InHalf(b', q), d) {
      assert HalfShown(e, m[q], InHalf(b, q), d);
      forall j: nat, x: nat | j in m[q].slots ensures SlotShown(e, m[q].slots[j], InHalf(b', q), m[q].chunk, j, d, x) {
        assert SlotShown(e, m[q].slots[j], InHalf(b, q), m[q].chunk, j, d, x);
      }
    }
  }

  /** One slot of a buffer is written, or nothing if the slot is empty. */
  lemma SlotCopied<T>(e: Env<T>, m: seq<Half>, b: (nat, nat) -> T, k: nat, j: nat, d: nat, t: Term, from: nat -> T,
      src: nat, m': seq<Half>, b': (nat, nat) -> T)
    requires Ok(e) && k < |e.p.chunks| && j < e.p.n && BufferShown(e, m, b, d) && |m| == 2
    requires b' == CopiedHalf(b, e.p.chunks[k].half, Times(j, e.p.chunks[k].slice), LenOf(e, k, j, d), from, src)
    requires
      var h := DirectMachine.HalfOf(e.p, k);
      m' == if LenOf(e, k, j, d) == 0 then m else SetHalf(m, h, Write(m[h], k, j, t))
    requires forall x: nat :: x < LenOf(e, k, j, d) && Clean(t) ==> from(src + x) == Val(e, t, x)
    ensures BufferShown(e, m', b', d)
  {
    var h := DirectMachine.HalfOf(e.p, k);
    if LenOf(e, k, j, d) == 0 {
      BufferSame(e, m, b, b', d);
    } else {
      forall x: nat ensures SlotShown(e, t, InHalf(b', h), k, j, d, x) { }
      SlotWritten(e, m[h], InHalf(b, h), InHalf(b', h), k, j, d, t);
      BufferWritten(e, m, b, h, Write(m[h], k, j, t), b', d);
    }
  }

  // ---- stage by stage ---------------------------------------------------------------------------

  function OpsAt<T>(e: Env<T>, pc: Pc, c: nat): seq<Op>
    requires Ok(e) && pc.k < |e.p.chunks| && PcOk(e.p, pc) && c < e.p.n
  {
    StageOps(e.p.n, c, e.p.chunks[pc.k], e.p.a2acnt + 2 * pc.k, Shakes(e.p, pc.k), pc.st)
  }

  function Run1<T>(e: Env<T>, pc: Pc, w: World<T>, c: nat): (w': World<T>)
    requires Ok(e) && Sized(e.p.n, w) && c < e.p.n && pc.k < |e.p.chunks| && PcOk(e.p, pc)
    ensures Sized(e.p.n, w')
  {
    ExecAll(e.p.n, w, c, e.call[pc.k], e.ranks, e.send(e.call[pc.k]), e.plus, OpsAt(e, pc, c))
  }

  function Do<T>(e: Env<T>, pc: Pc, w: World<T>, c: nat, op: Op): (w': World<T>)
    requires Ok(e) && Sized(e.p.n, w) && c < e.p.n && pc.k < |e.p.chunks|
    ensures Sized(e.p.n, w')
  {
    Exec(e.p.n, w, c, e.call[pc.k], e.ranks, e.send(e.call[pc.k]), e.plus, op)
  }

  lemma RunOne<T>(e: Env<T>, pc: Pc, w: World<T>, c: nat, op: Op)
    requires Ok(e) && Sized(e.p.n, w) && c < e.p.n && pc.k < |e.p.chunks| && PcOk(e.p, pc) && OpsAt(e, pc, c) == [op]
    ensures Run1(e, pc, w, c) == Do(e, pc, w, c, op)
  {
    ExecOne(e.p.n, w, c, e.call[pc.k], e.ranks, e.send(e.call[pc.k]), e.plus, op);
  }

  lemma RunTwo<T>(e: Env<T>, pc: Pc, w: World<T>, c: nat, a: Op, b: Op)
    requires Ok(e) && Sized(e.p.n, w) && c < e.p.n && pc.k < |e.p.chunks| && PcOk(e.p, pc) && OpsAt(e, pc, c) == [a, b]
    ensures Run1(e, pc, w, c) == Do(e, pc, Do(e, pc, w, c, a), c, b)
  {
    ExecTwo(e.p.n, w, c, e.call[pc.k], e.ranks, e.send(e.call[pc.k]), e.plus, a, b);
  }

  /** Card c goes on; the buffers of one card d may change. */
  lemma Frame<T>(e: Env<T>, s: State, w: World<T>, s': State, w': World<T>, c: nat, d: nat)
    requires Ok(e) && Sim(e, s, w) && Shape(e.p, s') && Sized(e.p.n, w') && c < e.p.n && d < e.p.n
    requires s'.shake == w'.shake && s'.flag == w'.flag
    requires s'.pc == s.pc[c := s'.pc[c]] && w'.cnt == w.cnt[c := w'.cnt[c]] && CntShown(e.p, s'.pc[c], w'.cnt[c])
    requires s'.inb == s.inb[d := s'.inb[d]] && w'.inb == w.inb[d := w'.inb[d]]
    requires s'.out == s.out[d := s'.out[d]] && w'.out == w.out[d := w'.out[d]]
    requires BufferShown(e, s'.inb[d], w'.inb[d], e.p.n) && BufferShown(e, s'.out[d], w'.out[d], d)
    requires s'.user == s.user[c := s'.user[c]] && w'.recv == w.recv[c := w'.recv[c]]
    requires UserShown(e, s'.user[c], w'.recv[c])
    ensures Sim(e, s', w')
  {
    forall t | 0 <= t < e.p.n ensures CardShown(e, s', w', t) { assert CardShown(e, s, w, t); }
  }

  predicate Quiet(st: Stage) {
    st.Shake? || st.AwaitShake? || st.Await1? || st.Await2? || st.Flag1? || st.Flag2?
  }

  lemma QuietRun<T>(e: Env<T>, s: State, w: World<T>, c: nat)
    requires Ok(e) && Sim(e, s, w) && At(e.p, s, c) && Quiet(s.pc[c].st)
    ensures
      var (s', w') := (Apply(e.p, s, c), Run1(e, s.pc[c], w, c));
      w' == w.(shake := s'.shake, flag := s'.flag)
  {
    assert CardShown(e, s, w, c);
    var ops := OpsAt(e, s.pc[c], c);
    if ops != [] { RunOne(e, s.pc[c], w, c, ops[0]); }
  }

  lemma QuietSim<T>(e: Env<T>, s: State, w: World<T>, c: nat)
    requires Ok(e) && Sim(e, s, w) && At(e.p, s, c) && Quiet(s.pc[c].st)
    ensures Sim(e, Apply(e.p, s, c), Run1(e, s.pc[c], w, c))
  {
    QuietRun(e, s, w, c);
    assert CardShown(e, s, w, c);
    Frame(e, s, w, Apply(e.p, s, c), Run1(e, s.pc[c], w, c), c, c);
  }

  /** A slice lies inside its chunk. */
  lemma SliceInside(n: nat, ch: Chunk, j: nat, x: nat)
    requires ChunkFits(n, ch) && j < n && x < ch.counts[j]
    ensures Times(j, ch.slice) + x < ch.count
  {
  }

  lemma ImageShown<T>(e: Env<T>, k: nat, c: nat, b: nat -> T)
    requires Ok(e) && k < |e.p.chunks| && c < e.p.n
    requires forall y: nat :: y < e.p.chunks[k].count ==>
                                b(y) == Local(e.plus, e.ranks, e.send(e.call[k]), c, e.p.chunks[k].user + y)
    ensures HalfShown(e, Half(k, Image(k, c, e.p.n)), b, e.p.n)
  {
    var m := Half(k, Image(k, c, e.p.n));
    assert ChunkFits(e.p.n, e.p.chunks[k]);
    forall j: nat, x: nat | j in m.slots ensures SlotShown(e, m.slots[j], b, k, j, e.p.n, x) {
      if x < e.p.chunks[k].counts[j] { SliceInside(e.p.n, e.p.chunks[k], j, x); }
    }
  }

  lemma LoadSim<T>(e: Env<T>, s: State, w: World<T>, c: nat)
    requires Ok(e) && Sim(e, s, w) && At(e.p, s, c) && s.pc[c].st == Load
    ensures Sim(e, Apply(e.p, s, c), Run1(e, s.pc[c], w, c))
  {
    var (pc, ch) := (s.pc[c], e.p.chunks[s.pc[c].k]);
    RunTwo(e, pc, w, c, LoadIn(ch.half, ch.user, ch.count), SetCnt(e.p.a2acnt + 2 * pc.k + 1));
    assert CardShown(e, s, w, c);
    var w' := Run1(e, pc, w, c);
    ImageShown(e, pc.k, c, InHalf(w'.inb[c], ch.half));
    BufferWritten(e, s.inb[c], w.inb[c], ch.half, Half(pc.k, Image(pc.k, c, e.p.n)), w'.inb[c], e.p.n);
    Frame(e, s, w, Apply(e.p, s, c), w', c, c);
  }

  lemma HalvesShown<T>(e: Env<T>, s: State, w: World<T>, c: nat, h: nat)
    requires Ok(e) && Sim(e, s, w) && c < e.p.n && h < 2
    ensures HalfShown(e, s.inb[c][h], InHalf(w.inb[c], h), e.p.n)
    ensures HalfShown(e, s.out[c][h], InHalf(w.out[c], h), c)
  {
    assert CardShown(e, s, w, c);
  }

  /** Element x of what is read from slot j of a half. */
  lemma ReadElement<T>(e: Env<T>, m: Half, b: nat -> T, k: nat, j: nat, d: nat, x: nat)
    requires Ok(e) && HalfShown(e, m, b, d) && k < |e.p.chunks| && j < e.p.n && x < LenOf(e, k, j, d)
    requires Clean(Read(m, k, j))
    ensures b(Times(j, e.p.chunks[k].slice) + x) == Val(e, Read(m, k, j), x)
  {
    SlotRead(e, m, b, k, j, d, x);
  }

  lemma InShown<T>(e: Env<T>, s: State, w: World<T>, c: nat, k: nat, j: nat, x: nat)
    requires Ok(e) && Sim(e, s, w) && c < e.p.n && k < |e.p.chunks| && j < e.p.n && x < LenOf(e, k, j, e.p.n)
    requires Clean(Read(s.inb[c][DirectMachine.HalfOf(e.p, k)], k, j))
    ensures
      var ch := e.p.chunks[k];
      InHalf(w.inb[c], ch.half)(Times(j, ch.slice) + x) == Val(e, Read(s.inb[c][ch.half], k, j), x)
  {
    var h := DirectMachine.HalfOf(e.p, k);
    HalvesShown(e, s, w, c, h);
    ReadElement(e, s.inb[c][h], InHalf(w.inb[c], h), k, j, e.p.n, x);
  }

  lemma OutShown<T>(e: Env<T>, s: State, w: World<T>, c: nat, k: nat, j: nat, x: nat)
    requires Ok(e) && Sim(e, s, w) && c < e.p.n && k < |e.p.chunks| && j < e.p.n && x < LenOf(e, k, j, c)
    requires Clean(Read(s.out[c][DirectMachine.HalfOf(e.p, k)], k, j))
    ensures
      var ch := e.p.chunks[k];
      InHalf(w.out[c], ch.half)(Times(j, ch.slice) + x) == Val(e, Read(s.out[c][ch.half], k, j), x)
  {
    var h := DirectMachine.HalfOf(e.p, k);
    HalvesShown(e, s, w, c, h);
    ReadElement(e, s.out[c][h], InHalf(w.out[c], h), k, j, c, x);
  }

  lemma PushInIs<T>(e: Env<T>, s: State, w: World<T>, c: nat)
    requires Ok(e) && Shape(e.p, s) && Sized(e.p.n, w) && At(e.p, s, c) && s.pc[c].st.Push1?
    ensures
      var (s', w', k) := (Apply(e.p, s, c), Run1(e, s.pc[c], w, c), s.pc[c].k);
      var (ch, d) := (e.p.chunks[k], Peer(e.p.n, c, s.pc[c].st.i));
      && Shape(e.p, s') && s' == s.(pc := s.pc[c := Advance(e.p, s.pc[c])], out := s.out[d := s'.out[d]])
      && s'.out[d] == (if ch.counts[d] == 0 then s.out[d]
                       else SetHalf(s.out[d], ch.half, Write(s.out[d][ch.half], k, c, Read(s.inb[c][ch.half], k, d))))
      && w' == w.(out := w.out[d := CopiedHalf(w.out[d], ch.half, Times(c, ch.slice), ch.counts[d],
                                               InHalf(w.inb[c], ch.half), Times(d, ch.slice))])
  {
    RunOne(e, s.pc[c], w, c, PushIn1(c, e.p.chunks[s.pc[c].k], Peer(e.p.n, c, s.pc[c].st.i)));
  }

  lemma PushInSim<T>(e: Env<T>, s: State, w: World<T>, c: nat)
    requires Ok(e) && Sim(e, s, w) && At(e.p, s, c) && s.pc[c].st.Push1?
    ensures Sim(e, Apply(e.p, s, c), Run1(e, s.pc[c], w, c))
  {
    PushInIs(e, s, w, c);
    var (pc, ch) := (s.pc[c], e.p.chunks[s.pc[c].k]);
    var (k, d, h) := (pc.k, Peer(e.p.n, c, pc.st.i), ch.half);
    assert CardShown(e, s, w, c) && CardShown(e, s, w, d);
    var (s', w', t) := (Apply(e.p, s, c), Run1(e, pc, w, c), Read(s.inb[c][h], k, d));
    var (from, src) := (InHalf(w.inb[c], h), Times(d, ch.slice));
    forall x: nat | x < LenOf(e, k, c, d) && Clean(t) ensures from(src + x) == Val(e, t, x) {
      InShown(e, s, w, c, k, d, x);
    }
    SlotCopied(e, s.out[d], w.out[d], k, c, d, t, from, src, s'.out[d], w'.out[d]);
    Frame(e, s, w, s', w', c, d);
  }

  lemma PushOutIs<T>(e: Env<T>, s: State, w: World<T>, c: nat)
    requires Ok(e) && Shape(e.p, s) && Sized(e.p.n, w) && At(e.p, s, c) && s.pc[c].st.Push2?
    ensures
      var (s', w', k) := (Apply(e.p, s, c), Run1(e, s.pc[c], w, c), s.pc[c].k);
      var (ch, d) := (e.p.chunks[k], Peer(e.p.n, c, s.pc[c].st.i));
      && Shape(e.p, s') && s' == s.(pc := s.pc[c := Advance(e.p, s.pc[c])], inb := s.inb[d := s'.inb[d]])
      && s'.inb[d] == (if ch.counts[c] == 0 then s.inb[d]
                       else SetHalf(s.inb[d], ch.half, Write(s.inb[d][ch.half], k, c, Read(s.inb[c][ch.half], k, c))))
      && w' == w.(inb := w.inb[d := CopiedHalf(w.inb[d], ch.half, Times(c, ch.slice), ch.counts[c],
                                               InHalf(w.inb[c], ch.half), Times(c, ch.slice))])
  {
    RunOne(e, s.pc[c], w, c, PushOut1(c, e.p.chunks[s.pc[c].k], Peer(e.p.n, c, s.pc[c].st.i)));
  }

  lemma PushOutSim<T>(e: Env<T>, s: State, w: World<T>, c: nat)
    requires Ok(e) && Sim(e, s, w) && At(e.p, s, c) && s.pc[c].st.Push2?
    ensures Sim(e, Apply(e.p, s, c), Run1(e, s.pc[c], w, c))
  {
    PushOutIs(e, s, w, c);
    var (pc, ch) := (s.pc[c], e.p.chunks[s.pc[c].k]);
    var (k, d, h) := (pc.k, Peer(e.p.n, c, pc.st.i), ch.half);
    assert CardShown(e, s, w, c) && CardShown(e, s, w, d);
    var (s', w', t) := (Apply(e.p, s, c), Run1(e, pc, w, c), Read(s.inb[c][h], k, c));
    var (from, src) := (InHalf(w.inb[c], h), Times(c, ch.slice));
    forall x: nat | x < LenOf(e, k, c, e.p.n) && Clean(t) ensures from(src + x) == Val(e, t, x) {
      InShown(e, s, w, c, k, c, x);
    }
    SlotCopied(e, s.inb[d], w.inb[d], k, c, e.p.n, t, from, src, s'.inb[d], w'.inb[d]);
    Frame(e, s, w, s', w', c, d);
  }

  /** Element x of the slice that card c takes from card i. */
  function Operand<T>(ch: Chunk, w: World<T>, c: nat, i: nat, x: nat): T
    requires c < |w.inb| && c < |w.out|
  {
    if i == c then w.inb[c](ch.half, Times(i, ch.slice) + x) else w.out[c](ch.half, Times(i, ch.slice) + x)
  }

  lemma OperandShown<T>(e: Env<T>, s: State, w: World<T>, c: nat, k: nat, i: nat, x: nat)
    requires Ok(e) && Sim(e, s, w) && c < e.p.n && k < |e.p.chunks| && x < e.p.chunks[k].counts[c] && i < e.p.n
    requires Clean(Slices(e.p, s, c, k, e.p.n)[i])
    ensures Val(e, Slices(e.p, s, c, k, e.p.n)[i], x) == Operand(e.p.chunks[k], w, c, i, x)
  {
    if i == c { InShown(e, s, w, c, k, i, x); } else { OutShown(e, s, w, c, k, i, x); }
  }

  lemma FoldIsReduce<T>(e: Env<T>, w: World<T>, c: nat, ch: Chunk, ys: seq<T>, x: nat)
    requires Ok(e) && c < e.p.n == |w.inb| == |w.out| == |ys|
    requires forall i: nat :: i < |ys| ==> ys[i] == Operand(ch, w, c, i, x)
    ensures FoldAt(e.p.n, w.inb[c], w.out[c], ch.half, ch.slice, c, e.plus, x) == Reduce(e.plus, ys)
  {
    var n := e.p.n;
    assert ys == seq(n, i requires 0 <= i < n => if i == c then w.inb[c](ch.half, Times(i, ch.slice) + x)
                                                 else w.out[c](ch.half, Times(i, ch.slice) + x));
  }

  /** Element x of the reduced slice. */
  lemma FoldShown<T>(e: Env<T>, s: State, w: World<T>, c: nat, k: nat, x: nat)
    requires Ok(e) && Sim(e, s, w) && c < e.p.n && k < |e.p.chunks| && x < e.p.chunks[k].counts[c]
    requires Clean(FoldTerms(Slices(e.p, s, c, k, e.p.n)))
    ensures
      var ch := e.p.chunks[k];
      FoldAt(e.p.n, w.inb[c], w.out[c], ch.half, ch.slice, c, e.plus, x)
      == Val(e, FoldTerms(Slices(e.p, s, c, k, e.p.n)), x)
  {
    var (ch, xs) := (e.p.chunks[k], Slices(e.p, s, c, k, e.p.n));
    EvalFold(xs, e.plus, InputsAt(e, x), e.junk);
    var ys := Evals(xs, e.plus, InputsAt(e, x), e.junk);
    forall i: nat | i < |ys| ensures ys[i] == Operand(ch, w, c, i, x) { OperandShown(e, s, w, c, k, i, x); }
    FoldIsReduce(e, w, c, ch, ys, x);
  }

  lemma FoldSim<T>(e: Env<T>, s: State, w: World<T>, c: nat)
    requires Ok(e) && Sim(e, s, w) && At(e.p, s, c) && s.pc[c].st == Fold
    ensures Sim(e, Apply(e.p, s, c), Run1(e, s.pc[c], w, c))
  {
    var (pc, ch) := (s.pc[c], e.p.chunks[s.pc[c].k]);
    var (n, k) := (e.p.n, pc.k);
    RunTwo(e, pc, w, c, FoldOp(c, ch), SetCnt(e.p.a2acnt + 2 * k + 2));
    assert CardShown(e, s, w, c);
    var (s', w', t) := (Apply(e.p, s, c), Run1(e, pc, w, c), FoldTerms(Slices(e.p, s, c, k, n)));
    var from := (x: nat) => FoldAt(n, w.inb[c], w.out[c], ch.half, ch.slice, c, e.plus, x);
    forall x: nat | x < LenOf(e, k, c, n) && Clean(t) ensures from(x) == Val(e, t, x) { FoldShown(e, s, w, c, k, x); }
    SlotCopied(e, s.inb[c], w.inb[c], k, c, n, t, from, 0, s'.inb[c], w'.inb[c]);
    Frame(e, s, w, s', w', c, c);
  }

  /** A chunk is given to all users of a card. */
  lemma ChunkGiven<T>(e: Env<T>, user: map<(nat, nat), Term>, recv: (nat, nat, nat) -> T, k: nat, m: Half, b: nat -> T,
      recv': (nat, nat, nat) -> T)
    requires Ok(e) && k < |e.p.chunks| && UserShown(e, user, recv) && HalfShown(e, m, b, e.p.n)
    requires recv' == Given(recv, e.call[k], 0, e.ranks, e.p.chunks[k].user, e.p.chunks[k].count, b, 0)
    ensures UserShown(e, user + AllSlots(k, m, e.p.n), recv')
  {
    var user' := user + AllSlots(k, m, e.p.n);
    forall q: nat, j: nat, i: nat, x: nat ensures UserElement(e, user', recv', q, j, i, x) {
      assert UserElement(e, user, recv, q, j, i, x);
      SlotRead(e, m, b, k, j, e.p.n, x);
      if q < |e.p.chunks| && j < e.p.n && x < e.p.chunks[q].counts[j] {
        assert ChunkFits(e.p.n, e.p.chunks[q]) && Apart(e, k, q);
        SliceInside(e.p.n, e.p.chunks[q], j, x);
      }
    }
  }

  lemma CopySim<T>(e: Env<T>, s: State, w: World<T>, c: nat)
    requires Ok(e) && Sim(e, s, w) && At(e.p, s, c) && s.pc[c].st == CopyOut
    ensures Sim(e, Apply(e.p, s, c), Run1(e, s.pc[c], w, c))
  {
    var (pc, ch) := (s.pc[c], e.p.chunks[s.pc[c].k]);
    RunOne(e, pc, w, c, ToUsers(ch.half, ch.user, ch.count));
    assert CardShown(e, s, w, c);
    var (s', w') := (Apply(e.p, s, c), Run1(e, pc, w, c));
    ChunkGiven(e, s.user[c], w.recv[c], pc.k, s.inb[c][ch.half], InHalf(w.inb[c], ch.half), w'.recv[c]);
    Frame(e, s, w, s', w', c, c);
  }

  /** A card that executes the operations of a stage does what the machine's card does. */
  lemma StageSim<T>(e: Env<T>, s: State, w: World<T>, c: nat)
    requires Ok(e) && Sim(e, s, w) && At(e.p, s, c)
    ensures Sim(e, Apply(e.p, s, c), Run1(e, s.pc[c], w, c))
  {
    match s.pc[c].st
    case Load => LoadSim(e, s, w, c);
    case Push1(_) => PushInSim(e, s, w, c);
    case Fold => FoldSim(e, s, w, c);
    case Push2(_) => PushOutSim(e, s, w, c);
    case CopyOut => CopySim(e, s, w, c);
    case _ => QuietSim(e, s, w, c);
  }

  // ---- whole runs --------------------------------------------------------------------------------

  /** Where every card is in its stream, and what the operations so far have done. */
  datatype Config<T> = Config(pc: seq<Pc>, w: World<T>)

  ghost predicate Free<T>(e: Env<T>, k: Config<T>, c: nat)
    requires Ok(e)
  {
    && |k.pc| == e.p.n && Sized(e.p.n, k.w) && c < e.p.n && k.pc[c].k < |e.p.chunks| && PcOk(e.p, k.pc[c])
    && forall i :: 0 <= i < |OpsAt(e, k.pc[c], c)| ==> Passes(e.p.n, k.w, c, OpsAt(e, k.pc[c], c)[i])
  }

  ghost predicate Goes<T>(e: Env<T>, k: Config<T>, k': Config<T>)
    requires Ok(e)
  {
    exists c: nat :: Free(e, k, c) && k' == Config(k.pc[c := Advance(e.p, k.pc[c])], Run1(e, k.pc[c], k.w, c))
  }

  /** Any buffer contents, any flags that the counters have reached. */
  ghost predicate Starts<T>(e: Env<T>, k: Config<T>)
    requires Ok(e)
  {
    && |k.pc| == e.p.n && Sized(e.p.n, k.w)
    && (forall c :: 0 <= c < e.p.n ==> k.pc[c] == First(e.p, 0) && k.w.shake[c] <= e.p.prevcnt)
    && (forall c, d :: 0 <= c < e.p.n && 0 <= d < e.p.n ==> k.w.flag[c][d] <= e.p.a2acnt)
  }

  ghost predicate StreamRun<T>(e: Env<T>, tr: seq<Config<T>>)
    requires Ok(e)
  {
    tr != [] && Starts(e, tr[0]) && forall i :: 0 < i < |tr| ==> Goes(e, tr[i - 1], tr[i])
  }

  function Empty<T>(e: Env<T>, k: Config<T>): State {
    var none := seq(2, _ => Half(0, map[]));
    State(k.pc, k.w.shake, k.w.flag, seq(e.p.n, _ => none), seq(e.p.n, _ => none), seq(e.p.n, _ => map[]))
  }

  /** Every run of the streams is a run of the machine, element by element. */
  lemma {:induction false} Simulated<T>(e: Env<T>, tr: seq<Config<T>>) returns (abs: seq<State>)
    requires Ok(e) && StreamRun(e, tr)
    ensures abs != [] && Run(e.p, abs) && abs[|abs| - 1].pc == tr[|tr| - 1].pc
    ensures Sim(e, abs[|abs| - 1], tr[|tr| - 1].w)
    decreases |tr|
  {
    if |tr| == 1 {
      abs := [Empty(e, tr[0])];
      forall c | 0 <= c < e.p.n ensures CardShown(e, abs[0], tr[0].w, c) { }
    } else {
      abs := Simulated(e, tr[..|tr| - 1]);
      assert Goes(e, tr[|tr| - 2], tr[|tr| - 1]);
      abs := Follow(e, abs, tr[|tr| - 2], tr[|tr| - 1]);
    }
  }

  lemma Follow<T>(e: Env<T>, abs: seq<State>, k: Config<T>, k': Config<T>) returns (abs': seq<State>)
    requires Ok(e) && abs != [] && Run(e.p, abs) && Goes(e, k, k')
    requires abs[|abs| - 1].pc == k.pc && Sim(e, abs[|abs| - 1], k.w)
    ensures abs' != [] && Run(e.p, abs') && abs'[|abs'| - 1].pc == k'.pc && Sim(e, abs'[|abs'| - 1], k'.w)
  {
    var s := abs[|abs| - 1];
    var c: nat :| Free(e, k, c) && k' == Config(k.pc[c := Advance(e.p, k.pc[c])], Run1(e, k.pc[c], k.w, c));
    WaitsAgree(e, s, k, c);
    StageSim(e, s, k.w, c);
    RunGrows(e.p, abs, c);
    abs' := abs + [Apply(e.p, s, c)];
  }

  lemma WaitsAgree<T>(e: Env<T>, s: State, k: Config<T>, c: nat)
    requires Ok(e) && Sim(e, s, k.w) && s.pc == k.pc
    ensures Free(e, k, c) <==> At(e.p, s, c) && Enabled(e.p, s, c)
  {
    if At(e.p, s, c) {
      var ops := OpsAt(e, k.pc[c], c);
      if ops != [] { assert Passes(e.p.n, k.w, c, ops[0]) <==> Enabled(e.p, s, c); }
    }
  }

  ghost predicate SomeoneFree<T>(e: Env<T>, k: Config<T>)
    requires Ok(e)
  {
    exists c: nat :: Free(e, k, c)
  }

  /** As long as some card has operations left, no wait holds every card up. */
  lemma StreamsNeverBlock<T>(e: Env<T>, tr: seq<Config<T>>, d: nat)
    requires Ok(e) && StreamRun(e, tr) && d < e.p.n == |tr[|tr| - 1].pc| && tr[|tr| - 1].pc[d].k < |e.p.chunks|
    ensures SomeoneFree(e, tr[|tr| - 1])
  {
    var abs := Simulated(e, tr);
    var s := abs[|abs| - 1];
    DirectNeverDeadlocks(e.p, abs, d);
    var c: nat :| CanStep(e.p, s, c);
    WaitsAgree(e, s, tr[|tr| - 1], c);
  }

  lemma RunGrows(p: Mesh, abs: seq<State>, c: nat)
    requires Valid(p) && abs != [] && Run(p, abs) && At(p, abs[|abs| - 1], c) && Enabled(p, abs[|abs| - 1], c)
    requires Shape(p, Apply(p, abs[|abs| - 1], c))
    ensures Run(p, abs + [Apply(p, abs[|abs| - 1], c)])
  {
    var (s, longer) := (abs[|abs| - 1], abs + [Apply(p, abs[|abs| - 1], c)]);
    assert DirectTheorems.Step(p, s, Apply(p, s, c));
    forall i | 0 < i < |longer| ensures DirectTheorems.Step(p, longer[i - 1], longer[i]) {
      if i < |abs| { assert DirectTheorems.Step(p, abs[i - 1], abs[i]); }
    }
  }

  /** What all ranks of all cards have at element u of a call. */
  function Reduced<T>(e: Env<T>, call: nat, u: nat): T
    requires e.p.n > 0 && e.ranks > 0
  {
    Reduce(e.plus, seq(e.p.n, c requires 0 <= c < e.p.n => Local(e.plus, e.ranks, e.send(call), c, u)))
  }

  lemma InputsAre<T>(e: Env<T>, k: nat, j: nat, x: nat)
    requires Ok(e) && k < |e.p.chunks|
    ensures Reduce(e.plus, Inputs(InputsAt(e, x), e.p.n, k, j)) == Reduced(e, e.call[k], PlaceOf(e, k, j) + x)
  {
    var u := PlaceOf(e, k, j) + x;
    assert Inputs(InputsAt(e, x), e.p.n, k, j)
        == seq(e.p.n, c requires 0 <= c < e.p.n => Local(e.plus, e.ranks, e.send(e.call[k]), c, u));
  }

  lemma FullClean<T>(e: Env<T>, k: nat, j: nat)
    requires e.p.n > 0
    ensures Clean(Full(e.p, k, j))
  {
    EvalFold(Leaves(k, j, e.p.n), e.plus, InputsAt(e, 0), e.junk);
  }

  /** A card that has left a chunk has every element of it reduced over all ranks of all
      cards in card order, at its place in the memory of each of its users. */
  lemma StreamsReduceAll<T>(e: Env<T>, tr: seq<Config<T>>, c: nat, k: nat, j: nat, i: nat, x: nat)
    requires Ok(e) && StreamRun(e, tr) && c < e.p.n == |tr[|tr| - 1].pc| && k < |e.p.chunks| && j < e.p.n
    requires k < tr[|tr| - 1].pc[c].k && i < e.ranks && x < e.p.chunks[k].counts[j]
    ensures |tr[|tr| - 1].w.recv| == e.p.n
    ensures
      var u := PlaceOf(e, k, j) + x;
      tr[|tr| - 1].w.recv[c](e.call[k], i, u) == Reduced(e, e.call[k], u)
  {
    var abs := Simulated(e, tr);
    var (s, w) := (abs[|abs| - 1], tr[|tr| - 1].w);
    DirectDelivers(e.p, abs, c, k, j);
    assert CardShown(e, s, w, c) && UserElement(e, s.user[c], w.recv[c], k, j, i, x);
    FullClean(e, k, j);
    FullIsReduction(k, j, e.p.n, e.plus, InputsAt(e, x), e.junk);
    InputsAre(e, k, j, x);
  }

  // ---- the chunks of a call ------------------------------------------------------------------------

  ghost predicate InOrder(n: nat, cs: seq<Chunk>, cnt: nat) {
    && (forall k: nat :: k < |cs| ==> ChunkFits(n, cs[k]) && cs[k].user >= cnt)
    && (forall k: nat, q: nat :: k < q < |cs| ==> cs[k].user + cs[k].count <= cs[q].user)
  }

  lemma OrderGrows(n: nat, ch: Chunk, rest: seq<Chunk>, cnt: nat)
    requires ChunkFits(n, ch) && cnt <= ch.user && InOrder(n, rest, ch.user + ch.count)
    ensures InOrder(n, [ch] + rest, cnt)
  {
    var cs := [ch] + rest;
    forall k: nat, q: nat | k < q < |cs| ensures cs[k].user + cs[k].count <= cs[q].user {
      assert cs[q] == rest[q - 1];
      if k > 0 { assert cs[k] == rest[k - 1]; }
    }
  }

  lemma OrderFrom(n: nat, cs: seq<Chunk>, later: nat, cnt: nat)
    requires InOrder(n, cs, later) && cnt <= later
    ensures InOrder(n, cs, cnt)
  {
  }

  /** The chunks of a call are cut as the streams need it, and lie one after the other. */
  lemma {:induction false} CallFits(n: nat, slice: nat, total: nat, stride: nat, cnt: nat, first: bool, stepNo: nat)
    requires stride >= Times(n, slice) && stride > 0
    ensures InOrder(n, CallChunks(n, slice, total, stride, cnt, first, stepNo), cnt)
    decreases total - cnt
  {
    if cnt < total {
      var ch := ChunkOf(n, slice, first, stepNo, cnt, if Times(n, slice) + cnt > total then total - cnt
                        else Times(n, slice));
      var rest := CallChunks(n, slice, total, stride, cnt + stride, false, stepNo + 1);
      CallFits(n, slice, total, stride, cnt + stride, false, stepNo + 1);
      OrderFrom(n, rest, cnt + stride, ch.user + ch.count);
      OrderGrows(n, ch, rest, cnt);
    }
  }

  /** Chunk k of a call. */
  lemma {:induction false} ChunkAt(n: nat, slice: nat, total: nat, stride: nat, cnt: nat, first: bool, stepNo: nat,
      k: nat)
    requires stride > 0 && cnt + Times(k, stride) < total
    ensures
      var (cs, at) := (CallChunks(n, slice, total, stride, cnt, first, stepNo), cnt + Times(k, stride));
      && k < |cs| && cs[k].user == at && cs[k].slice == slice
      && cs[k].count == if Times(n, slice) + at > total then total - at else Times(n, slice)
    decreases k
  {
    if k > 0 { ChunkAt(n, slice, total, stride, cnt + stride, false, stepNo + 1, k - 1); }
  }

  /** The ranks of a card share the data out: every element is in a slice of a chunk of one. */
  lemma SharedOut(n: nat, slice: nat, total: nat, rankNum: nat, stepNo: nat, u: nat)
      returns (rankId: nat, k: nat, j: nat, x: nat)
    requires n > 0 && slice > 0 && rankNum > 0 && u < total
    ensures
      var step := Times(n, slice);
      && rankId < rankNum && Times(rankNum, step) > 0
      && var cs := CallChunks(n, slice, total, Times(rankNum, step), Times(rankId, step), true, stepNo);
      && k < |cs| && j < n == |cs[k].counts| && x < cs[k].counts[j] && cs[k].user + Times(j, slice) + x == u
  {
    var step := Times(n, slice);
    TimesStep(0, n, slice);
    TimesStep(0, rankNum, step);
    var y;
    k, rankId, y := Block(rankNum, step, u);
    j, x := InSlice(n, slice, y);
    InChunk(n, slice, total, Times(rankNum, step), Times(rankId, step), stepNo, k, y, j, x);
  }

  /** The block of `step` elements in which u lies: the k-th of rank `rankId`. */
  lemma Block(rankNum: nat, step: nat, u: nat) returns (k: nat, rankId: nat, y: nat)
    requires rankNum > 0 && step > 0
    ensures rankId < rankNum && y < step && Times(rankId, step) + Times(k, Times(rankNum, step)) + y == u
  {
    var block: nat;
    block, y := Divided(u, step);
    k, rankId := Divided(block, rankNum);
    TimesIs(rankId, step);
    TimesIs(rankNum, step);
    TimesIs(k, rankNum * step);
    Products(block, k, rankNum, rankId, step);
  }

  lemma Divided(x: nat, d: nat) returns (q: nat, r: nat)
    requires d > 0
    ensures x == q * d + r && r < d
  {
    q, r := x / d, x % d;
  }

  lemma Products(block: nat, k: nat, rankNum: nat, rankId: nat, step: nat)
    requires block == k * rankNum + rankId
    ensures rankId * step + k * (rankNum * step) == block * step
  {
    assert (k * rankNum) * step == k * (rankNum * step);
    assert block * step == (k * rankNum) * step + rankId * step;
  }

  lemma InSlice(n: nat, slice: nat, y: nat) returns (j: nat, x: nat)
    requires slice > 0 && y < Times(n, slice)
    ensures j < n && x < slice && Times(j, slice) + x == y
  {
    j, x := y / slice, y % slice;
    TimesIs(j, slice);
    if n < j { TimesStep(n, j, slice); }
  }

  lemma InChunk(n: nat, slice: nat, total: nat, stride: nat, cnt: nat, stepNo: nat, k: nat, y: nat, j: nat, x: nat)
    requires stride >= Times(n, slice) > y && cnt + Times(k, stride) + y < total
    requires j < n && x < slice && Times(j, slice) + x == y
    ensures
      var cs := CallChunks(n, slice, total, stride, cnt, true, stepNo);
      && k < |cs| && |cs[k].counts| == n && x < cs[k].counts[j]
      && cs[k].user + Times(j, slice) + x == cnt + Times(k, stride) + y
  {
    ChunkAt(n, slice, total, stride, cnt, true, stepNo, k);
    CallFits(n, slice, total, stride, cnt, true, stepNo);
  }
}
