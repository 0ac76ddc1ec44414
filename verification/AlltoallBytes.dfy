/** The streams of the pairwise Alltoall, executed operation by operation on bytes: whatever
    the interleaving, it is a transpose. */
module AlltoallBytes {
  import opened Arith
  import opened Bytes
  import opened Terms
  import opened TwoSlots
  import opened Alltoall
  import opened AlltoallMachine

  /** The ranks and their pieces, bytes of a block, what every rank sends, the ring counter
      before the call, and the next rank on the ring. */
  datatype Env<!T> = Env(p: Exchange, size: nat, send: (nat, nat) -> T, ring: nat, next: seq<nat>)

  /** `ring` is the flag of every rank that its predecessor on the ring writes. */
  datatype World<T> = World(slot: seq<seq<seq<nat>>>, ring: seq<nat>, inb: seq<nat -> T>, out: seq<nat -> T>,
    recv: seq<nat -> T>)

  predicate Sized<T>(n: nat, w: World<T>) {
    && |w.slot| == |w.ring| == |w.inb| == |w.out| == |w.recv| == n
    && (forall b :: 0 <= b < n ==> |w.slot[b]| == n)
    && (forall b, a :: 0 <= b < n && 0 <= a < n ==> |w.slot[b][a]| == SYNC_NUM)
  }

  // ---- what an operation does ------------------------------------------------------------------

  function SetSlot(slots: seq<seq<nat>>, a: nat, q: nat, v: nat): (r: seq<seq<nat>>)
    requires a < |slots| && q < |slots[a]|
    ensures |r| == |slots| && forall b :: 0 <= b < |r| ==> |r[b]| == |slots[b]|
  {
    slots[a := SetFlag(slots[a], q, v)]
  }

  /** Rank r executes one operation; `next` is the next rank on the ring. */
  function Exec<T>(n: nat, w: World<T>, r: nat, next: nat, send: (nat, nat) -> T, op: Op): (w': World<T>)
    requires Sized(n, w) && r < n
    ensures Sized(n, w')
  {
    match op
    case CopyOwn(user, len) => w.(recv := w.recv[r := Copied(w.recv[r], user, len, (u: nat) => send(r, u), user)])
    case Notify(to, q, v) =>
      if to >= n || q >= SYNC_NUM then w else w.(slot := w.slot[to := SetSlot(w.slot[to], r, q, v)])
    case LoadIn(user, len) => w.(inb := w.inb[r := Copied(w.inb[r], 0, len, (u: nat) => send(r, u), user)])
    case PushData(to, len) => if to >= n then w else w.(out := w.out[to := Copied(w.out[to], 0, len, w.inb[r], 0)])
    case ToUser(user, len) => w.(recv := w.recv[r := Copied(w.recv[r], user, len, w.out[r], 0)])
    case RingSend(v) => if next >= n then w else w.(ring := w.ring[next := v])
    case _ => w
  }

  /** A wait lets rank r go on.  The meeting of the ranks of a card is in `Met`. */
  predicate Passes<T>(n: nat, w: World<T>, r: nat, op: Op)
    requires Sized(n, w) && r < n
  {
    match op
    case WaitEq(from, q, v) => from < n && q < SYNC_NUM && w.slot[r][from][q] == v
    case RingWait(v) => w.ring[r] >= v
    case _ => true
  }

  function ExecAll<T>(n: nat, w: World<T>, r: nat, next: nat, send: (nat, nat) -> T, ops: seq<Op>): (w': World<T>)
    requires Sized(n, w) && r < n
    ensures Sized(n, w')
    decreases |ops|
  {
    if ops == [] then w else ExecAll(n, Exec(n, w, r, next, send, ops[0]), r, next, send, ops[1..])
  }

  // ---- the stages of a stream --------------------------------------------------------------------

  /** The operation of a stage; `ring` is the ring counter. */
  function StageOps(p: Exchange, r: nat, size: nat, ring: nat, k: nat, st: Stage): seq<Op>
    requires Valid(p) && r < p.n && k < |p.pieces|
  {
    var (q, peer, from) := (p.pieces[k], PeerAt(p, r, k), FromAt(p, r, k));
    match st
    case NotifyFrom => [Notify(from, ReadyNo(p, r, from, k) % SYNC_NUM, ReadyNo(p, r, from, k))]
    case Load => [LoadIn(Times(peer, size) + q.off, q.len)]
    case AwaitPeer => [WaitEq(peer, ReadyNo(p, peer, r, k) % SYNC_NUM, ReadyNo(p, peer, r, k))]
    case Push => [PushData(peer, q.len)]
    case NotifyPeer => [Notify(peer, DataNo(p, r, peer, k) % SYNC_NUM, DataNo(p, r, peer, k))]
    case AwaitFrom => [WaitEq(from, DataNo(p, from, r, k) % SYNC_NUM, DataNo(p, from, r, k))]
    case CopyOut => [ToUser(Times(from, size) + q.off, q.len)]
    case Meet => [CardBarrier]
    case Ring => [RingSend(ring + 1), RingWait(ring + 1)]
  }

  /** The operations of a piece on the stream are those of its stages. */
  lemma PieceIsStages(p: Exchange, r: nat, size: nat, ring: nat, k: nat)
    requires Valid(p) && r < p.n && k < |p.pieces|
    ensures
      PieceOps(p, r, size, ring, k) ==
      StageOps(p, r, size, ring, k, NotifyFrom) + StageOps(p, r, size, ring, k, Load)
      + StageOps(p, r, size, ring, k, AwaitPeer) + StageOps(p, r, size, ring, k, Push)
      + StageOps(p, r, size, ring, k, NotifyPeer) + StageOps(p, r, size, ring, k, AwaitFrom)
      + StageOps(p, r, size, ring, k, CopyOut) + StageOps(p, r, size, ring, k, Meet)
      + StageOps(p, r, size, ring, k, Ring)
  {
  }

  /** What a rank executes at `pc`: before everything else it copies its own block.  What it
      tells the next rank of the ring comes before the wait that ends a piece, see `Tells`. */
  function OpsAt(p: Exchange, r: nat, size: nat, ring: nat, pc: Pc): seq<Op>
    requires Valid(p) && r < p.n && pc.k < |p.pieces|
  {
    (if pc == Pc(0, NotifyFrom) then [CopyOwn(Times(r, size), size)] else [])
    + StageOps(p, r, size, ring, pc.k, pc.st)[if pc.st == Ring then 1 else 0..]
  }

  // ---- what blocks stand for -----------------------------------------------------------------------

  /** Byte x of the piece k that a has for b. */
  function InputAt<T>(e: Env<T>, a: nat, k: nat, b: nat, x: nat): T
    requires k < |e.p.pieces|
  {
    e.send(a, Times(b, e.size) + e.p.pieces[k].off + x)
  }

  /** A buffer holds the piece that the machine's buffer stands for. */
  ghost predicate Shown<T>(e: Env<T>, t: Term, m: nat -> T) {
    t.Leaf? && t.chunk < |e.p.pieces| ==>
      forall x: nat :: x < e.p.pieces[t.chunk].len ==> m(x) == InputAt(e, t.card, t.chunk, t.slot, x)
  }

  /** Where rank r puts piece k. */
  function PlaceOf<T>(e: Env<T>, r: nat, k: nat): nat
    requires Valid(e.p) && r < e.p.n && k < |e.p.pieces|
  {
    Times(FromAt(e.p, r, k), e.size) + e.p.pieces[k].off
  }

  ghost predicate UserByte<T>(e: Env<T>, r: nat, user: map<nat, Term>, recv: nat -> T, k: nat, x: nat)
    requires Valid(e.p) && r < e.p.n
  {
    k < |e.p.pieces| && k in user && user[k] == Leaf(FromAt(e.p, r, k), k, r) && x < e.p.pieces[k].len ==>
      recv(PlaceOf(e, r, k) + x) == InputAt(e, FromAt(e.p, r, k), k, r, x)
  }

  /** The rank's own block. */
  ghost predicate OwnByte<T>(e: Env<T>, r: nat, recv: nat -> T, x: nat) {
    x < e.size ==> recv(Times(r, e.size) + x) == e.send(r, Times(r, e.size) + x)
  }

  ghost predicate UserShown<T>(e: Env<T>, r: nat, pc: Pc, user: map<nat, Term>, recv: nat -> T)
    requires Valid(e.p) && r < e.p.n
  {
    && (forall k: nat, x: nat :: UserByte(e, r, user, recv, k, x))
    && (pc != Pc(0, NotifyFrom) ==> forall x: nat :: OwnByte(e, r, recv, x))
  }

  ghost predicate RankShown<T>(e: Env<T>, s: State, w: World<T>, r: nat)
    requires Valid(e.p) && Shape(e.p, s) && Sized(e.p.n, w) && r < e.p.n
  {
    Shown(e, s.inb[r], w.inb[r]) && Shown(e, s.out[r], w.out[r]) && UserShown(e, r, s.pc[r], s.user[r], w.recv[r])
  }

  ghost predicate Sim<T>(e: Env<T>, s: State, w: World<T>)
    requires Valid(e.p)
  {
    && Shape(e.p, s) && Sized(e.p.n, w) && s.slot == w.slot
    && forall r :: 0 <= r < e.p.n ==> RankShown(e, s, w, r)
  }

  // ---- pieces are apart ----------------------------------------------------------------------------

  /** Pieces stay inside their block, and those of one round come one after the other. */
  ghost predicate Ordered(size: nat, ps: seq<Piece>, i: nat, j: nat)
    requires i < j < |ps|
  {
    && ps[i].off + ps[i].len <= size && ps[j].off + ps[j].len <= size
    && (ps[i].round < ps[j].round || (ps[i].round == ps[j].round && ps[i].off + ps[i].len <= ps[j].off))
  }

  ghost predicate Within(size: nat, ps: seq<Piece>, first: nat, off: nat, k: nat)
    requires k < |ps|
  {
    ps[k].round >= first && off <= ps[k].off && ps[k].off + ps[k].len <= size
  }

  ghost predicate AllOrdered(size: nat, ps: seq<Piece>, first: nat, off: nat) {
    && (forall k: nat :: k < |ps| ==> Within(size, ps, first, off, k))
    && (forall a: nat, b: nat :: a < b < |ps| ==> Ordered(size, ps, a, b))
  }

  lemma {:induction false} RoundOrdered(i: nat, size: nat, off: nat)
    ensures AllOrdered(size, RoundPieces(i, size, off), i, off)
    ensures forall k :: 0 <= k < |RoundPieces(i, size, off)| ==> RoundPieces(i, size, off)[k].round == i
    decreases size - off
  {
    if off < size {
      var len := if off + MAX_SIZE > size then size - off else MAX_SIZE;
      RoundOrdered(i, size, off + len);
      Prepend(size, Piece(i, off, len), RoundPieces(i, size, off + len));
    }
  }

  lemma Prepend(size: nat, q: Piece, rest: seq<Piece>)
    requires AllOrdered(size, rest, q.round, q.off + q.len) && q.off + q.len <= size
    requires forall k :: 0 <= k < |rest| ==> rest[k].round == q.round
    ensures AllOrdered(size, [q] + rest, q.round, q.off)
  {
    var ps := [q] + rest;
    forall k: nat | k < |ps| ensures Within(size, ps, q.round, q.off, k) {
      if k > 0 { assert Within(size, rest, q.round, q.off + q.len, k - 1); }
    }
    forall a: nat, b: nat | a < b < |ps| ensures Ordered(size, ps, a, b) {
      assert Within(size, rest, q.round, q.off + q.len, b - 1);
      if a > 0 { assert Ordered(size, rest, a - 1, b - 1); }
    }
  }

  lemma {:induction false} PiecesOrdered(n: nat, size: nat, i: nat)
    requires 0 < i
    ensures AllOrdered(size, Pieces(n, size, i), i, 0)
    decreases n - i
  {
    if i < n {
      PiecesOrdered(n, size, i + 1);
      RoundOrdered(i, size, 0);
      Join(size, RoundPieces(i, size, 0), Pieces(n, size, i + 1), i);
    }
  }

  lemma Join(size: nat, head: seq<Piece>, rest: seq<Piece>, i: nat)
    requires AllOrdered(size, head, i, 0) && AllOrdered(size, rest, i + 1, 0)
    requires forall k :: 0 <= k < |head| ==> head[k].round == i
    ensures AllOrdered(size, head + rest, i, 0)
  {
    var ps := head + rest;
    forall k: nat | k < |ps| ensures Within(size, ps, i, 0, k) {
      if k < |head| { assert Within(size, head, i, 0, k); } else { assert Within(size, rest, i + 1, 0, k - |head|); }
    }
    forall a: nat, b: nat | a < b < |ps| ensures Ordered(size, ps, a, b) {
      assert Within(size, ps, i, 0, a) && Within(size, ps, i, 0, b);
      if b < |head| { assert Ordered(size, head, a, b); }
      else if a >= |head| { assert Ordered(size, rest, a - |head|, b - |head|); }
      else { assert Within(size, rest, i + 1, 0, b - |head|); }
    }
  }

  /** The ranks of one call; the previous rank of a rank's next rank is the rank itself. */
  ghost predicate Ok<T>(e: Env<T>) {
    && Valid(e.p) && e.p.pieces == Pieces(e.p.n, e.size, 1) && |e.next| == e.p.n
    && (forall r :: 0 <= r < e.p.n ==> e.next[r] < e.p.n && e.p.prev[e.next[r]] == r)
    && (forall r :: 0 <= r < e.p.n ==> e.next[e.p.prev[r]] == r)
  }

  /** Different pieces go to different bytes of a rank's receive buffer, and none to the bytes
      of its own block. */
  lemma PlacesApart<T>(e: Env<T>, r: nat, k: nat, j: nat, x: nat, y: nat)
    requires Ok(e) && r < e.p.n && k < |e.p.pieces| && j < |e.p.pieces| && k != j
    requires x < e.p.pieces[k].len && y < e.p.pieces[j].len
    ensures PlaceOf(e, r, k) + x != PlaceOf(e, r, j) + y
  {
    PiecesOrdered(e.p.n, e.size, 1);
    var (a, b) := (FromAt(e.p, r, k), FromAt(e.p, r, j));
    if k < j { assert Ordered(e.size, e.p.pieces, k, j); } else { assert Ordered(e.size, e.p.pieces, j, k); }
    if a < b { TimesStep(a, b, e.size); } else if b < a { TimesStep(b, a, e.size); }
  }

  lemma OwnApart<T>(e: Env<T>, r: nat, k: nat, x: nat, y: nat)
    requires Ok(e) && r < e.p.n && k < |e.p.pieces| && x < e.p.pieces[k].len && y < e.size
    ensures PlaceOf(e, r, k) + x != Times(r, e.size) + y
  {
    PiecesOrdered(e.p.n, e.size, 1);
    assert Within(e.size, e.p.pieces, 1, 0, k);
    var a := FromAt(e.p, r, k);
    if a < r { TimesStep(a, r, e.size); } else { TimesStep(r, a, e.size); }
  }

  // ---- stage by stage --------------------------------------------------------------------------------

  function Run1<T>(e: Env<T>, pc: Pc, w: World<T>, r: nat): (w': World<T>)
    requires Ok(e) && Sized(e.p.n, w) && r < e.p.n && pc.k < |e.p.pieces|
    ensures Sized(e.p.n, w')
  {
    ExecAll(e.p.n, w, r, e.next[r], e.send, OpsAt(e.p, r, e.size, e.ring + pc.k, pc))
  }

  lemma ExecOne<T>(n: nat, w: World<T>, r: nat, next: nat, send: (nat, nat) -> T, op: Op)
    requires Sized(n, w) && r < n
    ensures ExecAll(n, w, r, next, send, [op]) == Exec(n, w, r, next, send, op)
  {
  }

  lemma ExecTwo<T>(n: nat, w: World<T>, r: nat, next: nat, send: (nat, nat) -> T, x: Op, y: Op)
    requires Sized(n, w) && r < n
    ensures ExecAll(n, w, r, next, send, [x, y]) == Exec(n, Exec(n, w, r, next, send, x), r, next, send, y)
  {
    assert [x, y][1..] == [y];
    ExecOne(n, Exec(n, w, r, next, send, x), r, next, send, y);
  }

  /** What a stage does, after the copy of the own block. */
  function Main<T>(e: Env<T>, pc: Pc, w: World<T>, r: nat): (w': World<T>)
    requires Ok(e) && Sized(e.p.n, w) && r < e.p.n && pc.k < |e.p.pieces|
    ensures Sized(e.p.n, w')
  {
    if pc.st == Ring then w
    else Exec(e.p.n, w, r, e.next[r], e.send, StageOps(e.p, r, e.size, e.ring + pc.k, pc.k, pc.st)[0])
  }

  function First<T>(e: Env<T>, pc: Pc, w: World<T>, r: nat): (w': World<T>)
    requires Ok(e) && Sized(e.p.n, w) && r < e.p.n
    ensures Sized(e.p.n, w')
  {
    if pc == Pc(0, NotifyFrom) then Exec(e.p.n, w, r, e.next[r], e.send, CopyOwn(Times(r, e.size), e.size)) else w
  }

  lemma RunIs<T>(e: Env<T>, pc: Pc, w: World<T>, r: nat)
    requires Ok(e) && Sized(e.p.n, w) && r < e.p.n && pc.k < |e.p.pieces|
    ensures Run1(e, pc, w, r) == Main(e, pc, First(e, pc, w, r), r)
  {
    var (n, ops) := (e.p.n, StageOps(e.p, r, e.size, e.ring + pc.k, pc.k, pc.st));
    if pc == Pc(0, NotifyFrom) {
      assert ops[0..] == ops;
      ExecTwo(n, w, r, e.next[r], e.send, CopyOwn(Times(r, e.size), e.size), ops[0]);
    } else if pc.st == Ring {
      RingIs(n, w, r, e.next[r], e.send, e.ring + pc.k, ops);
    } else {
      ExecOne(n, w, r, e.next[r], e.send, ops[0]);
      assert [] + ops[0..] == ops;
    }
  }

  lemma RingIs<T>(n: nat, w: World<T>, r: nat, next: nat, send: (nat, nat) -> T, ring: nat, ops: seq<Op>)
    requires Sized(n, w) && r < n && ops == [RingSend(ring + 1), RingWait(ring + 1)]
    ensures ExecAll(n, w, r, next, send, [] + ops[1..]) == w
  {
    assert [] + ops[1..] == [RingWait(ring + 1)];
    ExecOne(n, w, r, next, send, RingWait(ring + 1));
  }

  /** Rank r goes on; its users' memory, and one receive buffer, may change. */
  lemma Frame<T>(e: Env<T>, s: State, w: World<T>, s': State, w': World<T>, r: nat, d: nat)
    requires Valid(e.p) && Sim(e, s, w) && Shape(e.p, s') && Sized(e.p.n, w') && r < e.p.n && d < e.p.n
    requires s'.pc == s.pc[r := s'.pc[r]] && s'.slot == w'.slot
    requires s'.inb == s.inb[r := s'.inb[r]] && w'.inb == w.inb[r := w'.inb[r]] && Shown(e, s'.inb[r], w'.inb[r])
    requires s'.out == s.out[d := s'.out[d]] && w'.out == w.out[d := w'.out[d]] && Shown(e, s'.out[d], w'.out[d])
    requires s'.user == s.user[r := s'.user[r]] && w'.recv == w.recv[r := w'.recv[r]]
    requires UserShown(e, r, s'.pc[r], s'.user[r], w'.recv[r])
    ensures Sim(e, s', w')
  {
    forall t | 0 <= t < e.p.n ensures RankShown(e, s', w', t) { assert RankShown(e, s, w, t); }
  }

  /** The own block is copied before anything else. */
  lemma OwnCopied<T>(e: Env<T>, r: nat, pc: Pc, user: map<nat, Term>, recv: nat -> T, recv': nat -> T, pc': Pc)
    requires Ok(e) && r < e.p.n && UserShown(e, r, pc, user, recv) && pc == Pc(0, NotifyFrom)
    requires recv' == Copied(recv, Times(r, e.size), e.size, (u: nat) => e.send(r, u), Times(r, e.size))
    ensures UserShown(e, r, pc', user, recv')
  {
    forall k: nat, x: nat ensures UserByte(e, r, user, recv', k, x) {
      assert UserByte(e, r, user, recv, k, x);
      if k < |e.p.pieces| && x < e.p.pieces[k].len { NotOwn(e, r, k, x); }
    }
    forall x: nat ensures OwnByte(e, r, recv', x) { }
  }

  lemma NotOwn<T>(e: Env<T>, r: nat, k: nat, x: nat)
    requires Ok(e) && r < e.p.n && k < |e.p.pieces| && x < e.p.pieces[k].len
    ensures !(Times(r, e.size) <= PlaceOf(e, r, k) + x < Times(r, e.size) + e.size)
  {
    var y := PlaceOf(e, r, k) + x;
    if Times(r, e.size) <= y < Times(r, e.size) + e.size { OwnApart(e, r, k, x, y - Times(r, e.size)); }
  }

  lemma FirstSim<T>(e: Env<T>, s: State, w: World<T>, r: nat)
    requires Ok(e) && Sim(e, s, w) && At(e.p, s, r) && s.pc[r] == Pc(0, NotifyFrom)
    ensures Sim(e, Apply(e.p, s, r), Main(e, s.pc[r], First(e, s.pc[r], w, r), r))
  {
    assert RankShown(e, s, w, r);
    var (s', w') := (Apply(e.p, s, r), Main(e, s.pc[r], First(e, s.pc[r], w, r), r));
    OwnCopied(e, r, s.pc[r], s.user[r], w.recv[r], w'.recv[r], s'.pc[r]);
    Frame(e, s, w, s', w', r, r);
  }

  lemma QuietSim<T>(e: Env<T>, s: State, w: World<T>, r: nat)
    requires Ok(e) && Sim(e, s, w) && At(e.p, s, r) && s.pc[r] != Pc(0, NotifyFrom)
    requires s.pc[r].st != Load && s.pc[r].st != Push && s.pc[r].st != CopyOut
    ensures Sim(e, Apply(e.p, s, r), Main(e, s.pc[r], w, r))
  {
    assert RankShown(e, s, w, r);
    Frame(e, s, w, Apply(e.p, s, r), Main(e, s.pc[r], w, r), r, r);
  }

  lemma LoadSim<T>(e: Env<T>, s: State, w: World<T>, r: nat)
    requires Ok(e) && Sim(e, s, w) && At(e.p, s, r) && s.pc[r].st == Load
    ensures Sim(e, Apply(e.p, s, r), Main(e, s.pc[r], w, r))
  {
    assert RankShown(e, s, w, r);
    Frame(e, s, w, Apply(e.p, s, r), Main(e, s.pc[r], w, r), r, r);
  }

  lemma PushSim<T>(e: Env<T>, s: State, w: World<T>, r: nat)
    requires Ok(e) && Sim(e, s, w) && Inv(e.p, s) && At(e.p, s, r) && s.pc[r].st == Push
    ensures Sim(e, Apply(e.p, s, r), Main(e, s.pc[r], w, r))
  {
    assert RankShown(e, s, w, r) && Loaded(e.p, s, r);
    Frame(e, s, w, Apply(e.p, s, r), Main(e, s.pc[r], w, r), r, PeerAt(e.p, r, s.pc[r].k));
  }

  /** What the copy to the user changes. */
  lemma CopyIs<T>(e: Env<T>, s: State, w: World<T>, r: nat)
    requires Ok(e) && At(e.p, s, r) && Sized(e.p.n, w) && s.pc[r].st == CopyOut
    ensures
      var (k, s', w') := (s.pc[r].k, Apply(e.p, s, r), Main(e, s.pc[r], w, r));
      && Shape(e.p, s')
      && s' == s.(pc := s.pc[r := s'.pc[r]], user := s.user[r := Record(s.user[r], k, s.out[r])])
      && w' == w.(recv := w.recv[r := Copied(w.recv[r], PlaceOf(e, r, k), e.p.pieces[k].len, w.out[r], 0)])
  {
  }

  lemma CopySim<T>(e: Env<T>, s: State, w: World<T>, r: nat)
    requires Ok(e) && Sim(e, s, w) && At(e.p, s, r) && s.pc[r].st == CopyOut
    requires s.out[r] == Leaf(FromAt(e.p, r, s.pc[r].k), s.pc[r].k, r)
    ensures Sim(e, Apply(e.p, s, r), Main(e, s.pc[r], w, r))
  {
    CopyIs(e, s, w, r);
    assert RankShown(e, s, w, r);
    var (s', w') := (Apply(e.p, s, r), Main(e, s.pc[r], w, r));
    PieceGiven(e, r, s.pc[r], s'.pc[r], s.user[r], w.recv[r], w.out[r]);
    Frame(e, s, w, s', w', r, r);
  }

  lemma ArrivedAt(p: Exchange, s: State, r: nat)
    requires Inv(p, s) && At(p, s, r) && s.pc[r].st == CopyOut
    ensures s.out[r] == Leaf(FromAt(p, r, s.pc[r].k), s.pc[r].k, r)
  {
    var (k, f) := (s.pc[r].k, FromAt(p, r, s.pc[r].k));
    assert Paired(p, s, r, k) && Arrived(p, s, f, k);
    OtherWay(p, r, f, k);
  }

  /** A piece is put where it belongs; the others, and the own block, stay. */
  lemma PieceGiven<T>(e: Env<T>, r: nat, pc: Pc, pc': Pc, user: map<nat, Term>, recv: nat -> T, m: nat -> T)
    requires Ok(e) && r < e.p.n && pc.k < |e.p.pieces| && UserShown(e, r, pc, user, recv) && pc.st == CopyOut
    requires Shown(e, Leaf(FromAt(e.p, r, pc.k), pc.k, r), m)
    ensures
      var (k, f) := (pc.k, FromAt(e.p, r, pc.k));
      UserShown(e, r, pc', Record(user, k, Leaf(f, k, r)), Copied(recv, PlaceOf(e, r, k), e.p.pieces[k].len, m, 0))
  {
    var (k, f) := (pc.k, FromAt(e.p, r, pc.k));
    var recv' := Copied(recv, PlaceOf(e, r, k), e.p.pieces[k].len, m, 0);
    forall j: nat, x: nat ensures UserByte(e, r, Record(user, k, Leaf(f, k, r)), recv', j, x) {
      assert UserByte(e, r, user, recv, j, x);
      if j != k && j < |e.p.pieces| && x < e.p.pieces[j].len {
        var y := PlaceOf(e, r, j) + x;
        if PlaceOf(e, r, k) <= y < PlaceOf(e, r, k) + e.p.pieces[k].len {
          PlacesApart(e, r, k, j, y - PlaceOf(e, r, k), x);
        }
      }
    }
    forall x: nat ensures OwnByte(e, r, recv', x) {
      assert OwnByte(e, r, recv, x);
      var y := Times(r, e.size) + x;
      if x < e.size && PlaceOf(e, r, k) <= y < PlaceOf(e, r, k) + e.p.pieces[k].len {
        OwnApart(e, r, k, y - PlaceOf(e, r, k), x);
      }
    }
  }

  /** A rank that executes the operations of a stage does what the machine's rank does. */
  lemma StageSim<T>(e: Env<T>, s: State, w: World<T>, r: nat)
    requires Ok(e) && Sim(e, s, w) && Inv(e.p, s) && At(e.p, s, r)
    ensures Sim(e, Apply(e.p, s, r), Run1(e, s.pc[r], w, r))
  {
    RunIs(e, s.pc[r], w, r);
    if s.pc[r] == Pc(0, NotifyFrom) {
      FirstSim(e, s, w, r);
    } else {
      match s.pc[r].st
      case Load => LoadSim(e, s, w, r);
      case Push => PushSim(e, s, w, r);
      case CopyOut => ArrivedAt(e.p, s, r); CopySim(e, s, w, r);
      case _ => QuietSim(e, s, w, r);
    }
  }

  // ---- whole runs --------------------------------------------------------------------------------------

  /** Where every rank is in its stream, whether at the end of a piece it has told the next
      rank of the ring, and what the operations so far have done. */
  datatype Config<T> = Config(pc: seq<Pc>, told: seq<bool>, w: World<T>)

  ghost predicate Busy<T>(e: Env<T>, k: Config<T>, r: nat)
    requires Ok(e)
  {
    && |k.pc| == |k.told| == e.p.n && Sized(e.p.n, k.w) && r < e.p.n && k.pc[r].k < |e.p.pieces|
  }

  /** Nobody leaves the meeting that ends a piece before its mates have come. */
  ghost predicate Met<T>(e: Env<T>, k: Config<T>, r: nat)
    requires Ok(e) && Busy(e, k, r)
  {
    k.pc[r].st == Meet ==> forall m :: 0 <= m < e.p.n && m in e.p.mates[r] ==> Reached(k.pc[m], k.pc[r].k, Meet)
  }

  ghost predicate Free<T>(e: Env<T>, k: Config<T>, r: nat)
    requires Ok(e) && Busy(e, k, r)
  {
    var ops := OpsAt(e.p, r, e.size, e.ring + k.pc[r].k, k.pc[r]);
    && Met(e, k, r) && (k.pc[r].st == Ring ==> k.told[r])
    && forall i :: 0 <= i < |ops| ==> Passes(e.p.n, k.w, r, ops[i])
  }

  function After<T>(e: Env<T>, k: Config<T>, r: nat): Config<T>
    requires Ok(e) && Busy(e, k, r)
  {
    Config(k.pc[r := Advance(k.pc[r])], k.told[r := false], Run1(e, k.pc[r], k.w, r))
  }

  /** Rank r tells the next rank of the ring that it is done with its piece. */
  ghost predicate MayTell<T>(e: Env<T>, k: Config<T>, r: nat)
    requires Ok(e)
  {
    Busy(e, k, r) && k.pc[r].st == Ring && !k.told[r]
  }

  function Tells<T>(e: Env<T>, k: Config<T>, r: nat): Config<T>
    requires Ok(e) && Busy(e, k, r) && k.pc[r].st == Ring
  {
    var op := StageOps(e.p, r, e.size, e.ring + k.pc[r].k, k.pc[r].k, Ring)[0];
    Config(k.pc, k.told[r := true], Exec(e.p.n, k.w, r, e.next[r], e.send, op))
  }

  ghost predicate Goes<T>(e: Env<T>, k: Config<T>, k': Config<T>)
    requires Ok(e)
  {
    || (exists r: nat :: MayTell(e, k, r) && k' == Tells(e, k, r))
    || (exists r: nat :: Busy(e, k, r) && Free(e, k, r) && k' == After(e, k, r))
  }

  /** Any buffer contents, any flags that the counters have reached. */
  ghost predicate Starts<T>(e: Env<T>, k: Config<T>)
    requires Ok(e)
  {
    && |k.pc| == |k.told| == e.p.n && Sized(e.p.n, k.w)
    && (forall r :: 0 <= r < e.p.n ==> k.pc[r] == Pc(0, NotifyFrom) && !k.told[r] && k.w.ring[r] <= e.ring)
    && (forall a, b, q :: 0 <= a < e.p.n && 0 <= b < e.p.n && 0 <= q < SYNC_NUM ==> k.w.slot[b][a][q] <= e.p.base[a][b])
  }

  ghost predicate StreamRun<T>(e: Env<T>, tr: seq<Config<T>>)
    requires Ok(e)
  {
    tr != [] && Starts(e, tr[0]) && forall i :: 0 < i < |tr| ==> Goes(e, tr[i - 1], tr[i])
  }

  /** Pieces at whose end a rank has told the next one. */
  function ToldOf(pc: Pc, told: bool): nat {
    pc.k + if told then 1 else 0
  }

  /** The ring flag shows how often the previous rank has told. */
  ghost predicate RingShown<T>(e: Env<T>, k: Config<T>, r: nat)
    requires Ok(e) && |k.pc| == |k.told| == e.p.n && Sized(e.p.n, k.w) && r < e.p.n
  {
    var done := ToldOf(k.pc[r], k.told[r]);
    && (k.told[r] ==> k.pc[r].st == Ring)
    && (k.w.ring[e.next[r]] == e.ring + done || (done == 0 && k.w.ring[e.next[r]] <= e.ring))
  }

  ghost predicate Follows<T>(e: Env<T>, s: State, k: Config<T>)
    requires Ok(e)
  {
    && Sim(e, s, k.w) && s.pc == k.pc && |k.told| == e.p.n
    && forall r: nat :: r < e.p.n ==> RingShown(e, k, r)
  }

  /** The ring wait ends exactly when the previous rank has told at the end of this piece. */
  lemma RingWaitExact<T>(e: Env<T>, s: State, k: Config<T>, r: nat)
    requires Ok(e) && Follows(e, s, k) && Busy(e, k, r) && k.pc[r].st == Ring
    ensures
      var b := e.p.prev[r];
      && b < e.p.n
      && (k.w.ring[r] >= e.ring + k.pc[r].k + 1 <==>
          k.pc[b].k > k.pc[r].k || (k.pc[b].k == k.pc[r].k && k.told[b]))
  {
    assert RingShown(e, k, e.p.prev[r]);
  }

  lemma WaitsAgree<T>(e: Env<T>, s: State, k: Config<T>, r: nat)
    requires Ok(e) && Follows(e, s, k) && Busy(e, k, r) && Free(e, k, r)
    ensures At(e.p, s, r) && Enabled(e.p, s, r)
  {
    var (pc, ops) := (k.pc[r], OpsAt(e.p, r, e.size, e.ring + k.pc[r].k, k.pc[r]));
    if pc.st == AwaitPeer || pc.st == AwaitFrom || pc.st == Ring {
      assert ops[0] == StageOps(e.p, r, e.size, e.ring + pc.k, pc.k, pc.st)[if pc.st == Ring then 1 else 0];
    }
    if pc.st == Ring {
      RingWaitExact(e, s, k, r);
      assert RingShown(e, k, e.p.prev[r]);
    }
  }

  function Empty<T>(e: Env<T>, k: Config<T>): State
    requires Ok(e)
  {
    State(k.pc, k.w.slot, seq(e.p.n, _ => Junk), seq(e.p.n, _ => Junk), seq(e.p.n, _ => map[]))
  }

  /** Telling the next rank changes the ring flag alone. */
  lemma TellSim<T>(e: Env<T>, s: State, k: Config<T>, r: nat)
    requires Ok(e) && Follows(e, s, k) && MayTell(e, k, r)
    ensures Follows(e, s, Tells(e, k, r))
  {
    var k' := Tells(e, k, r);
    forall t | 0 <= t < e.p.n ensures RankShown(e, s, k'.w, t) { assert RankShown(e, s, k.w, t); }
    forall t: nat | t < e.p.n ensures RingShown(e, k', t) {
      assert RingShown(e, k, t);
      if t != r { assert e.p.prev[e.next[t]] == t && e.p.prev[e.next[r]] == r; }
    }
  }

  /** No other stage changes ring flags. */
  lemma RingSame<T>(e: Env<T>, pc: Pc, w: World<T>, r: nat)
    requires Ok(e) && Sized(e.p.n, w) && r < e.p.n && pc.k < |e.p.pieces|
    ensures Run1(e, pc, w, r).ring == w.ring
  {
    RunIs(e, pc, w, r);
  }

  lemma GoSim<T>(e: Env<T>, s: State, k: Config<T>, r: nat)
    requires Ok(e) && Follows(e, s, k) && Inv(e.p, s) && Busy(e, k, r) && Free(e, k, r)
    ensures At(e.p, s, r) && Enabled(e.p, s, r) && Follows(e, Apply(e.p, s, r), After(e, k, r))
  {
    var k' := After(e, k, r);
    WaitsAgree(e, s, k, r);
    StageSim(e, s, k.w, r);
    RingSame(e, k.pc[r], k.w, r);
    forall t: nat | t < e.p.n ensures RingShown(e, k', t) { assert RingShown(e, k, t); }
  }

  /** Every run of the streams is a run of the machine, byte by byte. */
  lemma {:induction false} Simulated<T>(e: Env<T>, tr: seq<Config<T>>) returns (abs: seq<State>)
    requires Ok(e) && StreamRun(e, tr)
    ensures abs != [] && Run(e.p, abs) && Follows(e, abs[|abs| - 1], tr[|tr| - 1])
    decreases |tr|
  {
    if |tr| == 1 {
      abs := [Empty(e, tr[0])];
      forall r | 0 <= r < e.p.n ensures RankShown(e, abs[0], tr[0].w, r) { }
      forall r: nat | r < e.p.n ensures RingShown(e, tr[0], r) { }
    } else {
      abs := Simulated(e, tr[..|tr| - 1]);
      assert Goes(e, tr[|tr| - 2], tr[|tr| - 1]);
      RunInv(e.p, abs);
      abs := Follow(e, abs, tr[|tr| - 2], tr[|tr| - 1]);
    }
  }

  lemma Follow<T>(e: Env<T>, abs: seq<State>, k: Config<T>, k': Config<T>) returns (abs': seq<State>)
    requires Ok(e) && abs != [] && Run(e.p, abs) && Inv(e.p, abs[|abs| - 1]) && Goes(e, k, k')
    requires Follows(e, abs[|abs| - 1], k)
    ensures abs' != [] && Run(e.p, abs') && Follows(e, abs'[|abs'| - 1], k')
  {
    var s := abs[|abs| - 1];
    if r: nat :| MayTell(e, k, r) && k' == Tells(e, k, r) {
      TellSim(e, s, k, r);
      abs' := abs;
    } else {
      var r: nat :| Busy(e, k, r) && Free(e, k, r) && k' == After(e, k, r);
      GoSim(e, s, k, r);
      RunGrows(e.p, abs, r);
      abs' := abs + [Apply(e.p, s, r)];
    }
  }

  lemma RunGrows(p: Exchange, abs: seq<State>, r: nat)
    requires Valid(p) && abs != [] && Run(p, abs) && At(p, abs[|abs| - 1], r) && Enabled(p, abs[|abs| - 1], r)
    requires Shape(p, Apply(p, abs[|abs| - 1], r))
    ensures Run(p, abs + [Apply(p, abs[|abs| - 1], r)])
  {
    var (s, longer) := (abs[|abs| - 1], abs + [Apply(p, abs[|abs| - 1], r)]);
    assert AlltoallMachine.Step(p, s, Apply(p, s, r));
    forall i | 0 < i < |longer| ensures AlltoallMachine.Step(p, longer[i - 1], longer[i]) {
      if i < |abs| { assert AlltoallMachine.Step(p, abs[i - 1], abs[i]); }
    }
  }

  ghost predicate SomeoneGoes<T>(e: Env<T>, k: Config<T>)
    requires Ok(e)
  {
    exists r: nat :: MayTell(e, k, r) || (Busy(e, k, r) && Free(e, k, r))
  }

  /** A rank that the machine lets go on, or its predecessor on the ring, can. */
  lemma EnabledGoes<T>(e: Env<T>, s: State, k: Config<T>, r: nat)
    requires Ok(e) && Follows(e, s, k) && At(e.p, s, r) && Enabled(e.p, s, r)
    ensures SomeoneGoes(e, k)
  {
    var (pc, b) := (k.pc[r], e.p.prev[r]);
    var ops := OpsAt(e.p, r, e.size, e.ring + pc.k, pc);
    if pc.st == Ring {
      RingWaitExact(e, s, k, r);
      if MayTell(e, k, r) {
      } else if k.w.ring[r] < e.ring + pc.k + 1 {
        assert MayTell(e, k, b);
      } else {
        assert ops == [RingWait(e.ring + pc.k + 1)];
        assert Busy(e, k, r) && Free(e, k, r);
      }
    } else {
      var stage := StageOps(e.p, r, e.size, e.ring + pc.k, pc.k, pc.st);
      assert stage[0..] == stage && |stage| == 1;
      assert ops[|ops| - 1] == stage[0];
      assert Busy(e, k, r) && Free(e, k, r);
    }
  }

  /** As long as some rank has operations left, some rank can execute one. */
  lemma StreamsNeverBlock<T>(e: Env<T>, tr: seq<Config<T>>, t: nat)
    requires Ok(e) && StreamRun(e, tr) && t < e.p.n == |tr[|tr| - 1].pc| && tr[|tr| - 1].pc[t].k < |e.p.pieces|
    ensures SomeoneGoes(e, tr[|tr| - 1])
  {
    var abs := Simulated(e, tr);
    var s := abs[|abs| - 1];
    AlltoallNeverDeadlocks(e.p, abs, t);
    var r: nat :| At(e.p, s, r) && Enabled(e.p, s, r);
    EnabledGoes(e, s, tr[|tr| - 1], r);
  }

  /** Alltoall is a transpose of bytes: when rank r has executed its stream, byte f * size + x
      of its receive buffer is byte r * size + x of what rank f sends, for all ranks f. */
  lemma StreamsTranspose<T>(e: Env<T>, tr: seq<Config<T>>, r: nat, f: nat, x: nat)
    requires Ok(e) && StreamRun(e, tr) && r < e.p.n == |tr[|tr| - 1].pc| && f < e.p.n && x < e.size
    requires tr[|tr| - 1].pc[r].k == |e.p.pieces|
    ensures |tr[|tr| - 1].w.recv| == e.p.n
    ensures tr[|tr| - 1].w.recv[r](Times(f, e.size) + x) == e.send(f, Times(r, e.size) + x)
  {
    var abs := Simulated(e, tr);
    var (s, w) := (abs[|abs| - 1], tr[|tr| - 1].w);
    assert RankShown(e, s, w, r);
    if f == r {
      SomePieces(e, r, x);
      assert OwnByte(e, r, w.recv[r], x);
    } else {
      var k := AlltoallTransposes(e.p, abs, e.size, r, f, x);
      assert UserByte(e, r, s.user[r], w.recv[r], k, x - e.p.pieces[k].off);
    }
  }

  /** Where there is data there are pieces. */
  lemma SomePieces<T>(e: Env<T>, r: nat, x: nat)
    requires Ok(e) && r < e.p.n && x < e.size
    ensures |e.p.pieces| > 0
  {
    PiecesCover(e.p.n, e.size, 1, 1, x);
  }
}
