/** The streams of Send and Recv, executed operation by operation on bytes, for any program
    of slots: whatever the interleaving, a piece arrives where its receiver wants it. */
module RendezvousBytes {
  import opened Bytes
  import opened Terms
  import opened TwoSlots
  import opened Rendezvous
  import opened AlltoallvHost

  /** A piece in a user's memory. */
  datatype Place = Place(user: nat, len: nat)

  /** The ranks and their slots; where each rank's piece of a slot is; the copy that a rank
      makes before everything else; what every rank sends. */
  datatype Env<!T> = Env(p: Exchange, place: (nat, nat) -> Place, own: nat -> Op, send: (nat, nat) -> T)

  datatype World<T> = World(slot: seq<seq<seq<nat>>>, inb: seq<nat -> T>, out: seq<nat -> T>, recv: seq<nat -> T>)

  predicate Sized<T>(n: nat, w: World<T>) {
    && |w.slot| == |w.inb| == |w.out| == |w.recv| == n
    && (forall b :: 0 <= b < n ==> |w.slot[b]| == n)
    && (forall b, a :: 0 <= b < n && 0 <= a < n ==> |w.slot[b][a]| == SYNC_NUM)
  }

  // ---- what an operation does ------------------------------------------------------------------

  function SetSlot(slots: seq<seq<nat>>, a: nat, q: nat, v: nat): (r: seq<seq<nat>>)
    requires a < |slots| && q < |slots[a]|
    ensures |r| == |slots| && forall b :: 0 <= b < |r| ==> |r[b]| == |slots[b]|
  {
    slots[a := SetFlag(slots[a], q, v)]
  }

  /** Rank r executes one operation. */
  function Exec<T>(n: nat, w: World<T>, r: nat, send: (nat, nat) -> T, op: Op): (w': World<T>)
    requires Sized(n, w) && r < n
    ensures Sized(n, w')
  {
    match op
    case CopyOwn(src, dst, len) =>
      w.(recv := w.recv[r := Copied(w.recv[r], dst, len, (u: nat) => send(r, u), src)])
    case LoadIn(user, len) => w.(inb := w.inb[r := Copied(w.inb[r], 0, len, (u: nat) => send(r, u), user)])
    case WaitEq(_, _, _) => w
    case PushData(to, len) => if to >= n then w else w.(out := w.out[to := Copied(w.out[to], 0, len, w.inb[r], 0)])
    case Notify(to, q, v) =>
      if to >= n || q >= SYNC_NUM then w else w.(slot := w.slot[to := SetSlot(w.slot[to], r, q, v)])
    case ToUser(user, len) => w.(recv := w.recv[r := Copied(w.recv[r], user, len, w.out[r], 0)])
  }

  predicate Passes<T>(n: nat, w: World<T>, r: nat, op: Op)
    requires Sized(n, w) && r < n
  {
    op.WaitEq? ==> op.from < n && op.slot < SYNC_NUM && w.slot[r][op.from][op.slot] == op.value
  }

  function ExecAll<T>(n: nat, w: World<T>, r: nat, send: (nat, nat) -> T, ops: seq<Op>): (w': World<T>)
    requires Sized(n, w) && r < n
    ensures Sized(n, w')
    decreases |ops|
  {
    if ops == [] then w else ExecAll(n, Exec(n, w, r, send, ops[0]), r, send, ops[1..])
  }

  // ---- the stages of a stream --------------------------------------------------------------------

  /** The operation of a stage, if there is one. */
  function StageOps<T>(e: Env<T>, r: nat, pc: Pc): seq<Op>
    requires Valid(e.p) && r < e.p.n && pc.k < |e.p.slots| && PcOk(e.p, r, pc)
  {
    if pc.st == Skip then [] else
      var (b, at) := (Mate(e.p, r, pc.k), e.place(r, pc.k));
      var (s, v) := (Number(e.p, r, b, pc.k), Number(e.p, b, r, pc.k));
      if Notifies(pc.st) then [Notify(b, s % SYNC_NUM, s)]
      else if Awaits(pc.st) then [WaitEq(b, v % SYNC_NUM, v)]
      else if pc.st == Load then [LoadIn(at.user, at.len)]
      else if pc.st == Push then [PushData(b, at.len)]
      else [ToUser(at.user, at.len)]
  }

  /** The call of rank r in slot k. */
  function CallAt<T>(e: Env<T>, r: nat, k: nat): Call
    requires Valid(e.p) && r < e.p.n && k < |e.p.slots| && RoleAt(e.p, r, k) != Idle
  {
    var (b, at) := (Mate(e.p, r, k), e.place(r, k));
    Call(RoleAt(e.p, r, k).Send?, b, at.user, at.len, Number(e.p, r, b, k), Number(e.p, b, r, k))
  }

  /** The calls of rank r in slots k and later. */
  function CallsFrom<T>(e: Env<T>, r: nat, k: nat): seq<Call>
    requires Valid(e.p) && r < e.p.n && k <= |e.p.slots|
    decreases |e.p.slots| - k
  {
    if k == |e.p.slots| then []
    else (if RoleAt(e.p, r, k) == Idle then [] else [CallAt(e, r, k)]) + CallsFrom(e, r, k + 1)
  }

  /** A call puts on the stream what its stages execute, in the order of Advance. */
  lemma SendIsStages<T>(e: Env<T>, r: nat, k: nat)
    requires Valid(e.p) && r < e.p.n && k < |e.p.slots| && RoleAt(e.p, r, k).Send?
    ensures CallOps(CallAt(e, r, k)) ==
            StageOps(e, r, Pc(k, Load)) + StageOps(e, r, Pc(k, AwaitReady)) + StageOps(e, r, Pc(k, Push))
            + StageOps(e, r, Pc(k, NotifyData))
    ensures Begin(e.p, r, k) == Pc(k, Load) && Advance(e.p, r, Pc(k, Load)) == Pc(k, AwaitReady)
    ensures Advance(e.p, r, Pc(k, AwaitReady)) == Pc(k, Push) && Advance(e.p, r, Pc(k, Push)) == Pc(k, NotifyData)
    ensures Advance(e.p, r, Pc(k, NotifyData)) == Begin(e.p, r, k + 1)
  {
  }

  lemma RecvIsStages<T>(e: Env<T>, r: nat, k: nat)
    requires Valid(e.p) && r < e.p.n && k < |e.p.slots| && RoleAt(e.p, r, k).Recv?
    ensures CallOps(CallAt(e, r, k)) ==
            StageOps(e, r, Pc(k, NotifyReady)) + StageOps(e, r, Pc(k, AwaitData)) + StageOps(e, r, Pc(k, CopyOut))
    ensures Begin(e.p, r, k) == Pc(k, NotifyReady) && Advance(e.p, r, Pc(k, NotifyReady)) == Pc(k, AwaitData)
    ensures Advance(e.p, r, Pc(k, AwaitData)) == Pc(k, CopyOut)
    ensures Advance(e.p, r, Pc(k, CopyOut)) == Begin(e.p, r, k + 1)
  {
  }

  // ---- what blocks stand for -----------------------------------------------------------------------

  /** Byte x of what rank a sends in slot k. */
  function InputAt<T>(e: Env<T>, a: nat, k: nat, x: nat): T {
    e.send(a, e.place(a, k).user + x)
  }

  /** A buffer holds the piece that the machine's buffer stands for. */
  ghost predicate Shown<T>(e: Env<T>, t: Term, m: nat -> T) {
    t.Leaf? ==> forall x: nat :: x < e.place(t.card, t.chunk).len ==> m(x) == InputAt(e, t.card, t.chunk, x)
  }

  predicate Covers(at: Place, y: nat) {
    at.user <= y < at.user + at.len
  }

  predicate Receives<T>(e: Env<T>, r: nat, j: nat)
    requires Valid(e.p) && r < e.p.n
  {
    j < |e.p.slots| && RoleAt(e.p, r, j).Recv?
  }

  /** Byte y of rank r's receive buffer is not received in slots from .. to - 1. */
  ghost predicate Untouched<T>(e: Env<T>, r: nat, from: nat, to: nat, y: nat)
    requires Valid(e.p) && r < e.p.n
  {
    forall j: nat :: from <= j < to && Receives(e, r, j) ==> !Covers(e.place(r, j), y)
  }

  /** What a slot has received stays until another slot receives into the same bytes. */
  ghost predicate UserByte<T>(e: Env<T>, r: nat, now: nat, user: map<nat, Term>, recv: nat -> T, k: nat, x: nat)
    requires Valid(e.p) && r < e.p.n
  {
    Receives(e, r, k) && k < now && x < e.place(r, k).len && k in user && user[k] == Leaf(Mate(e.p, r, k), k, r)
    && Untouched(e, r, k + 1, now, e.place(r, k).user + x) ==>
      recv(e.place(r, k).user + x) == InputAt(e, Mate(e.p, r, k), k, x)
  }

  /** The copy of a rank's own data. */
  ghost predicate OwnByte<T>(e: Env<T>, r: nat, now: nat, recv: nat -> T, x: nat)
    requires Valid(e.p) && r < e.p.n
  {
    e.own(r).CopyOwn? && x < e.own(r).len && Untouched(e, r, 0, now, e.own(r).dst + x) ==>
      recv(e.own(r).dst + x) == e.send(r, e.own(r).src + x)
  }

  ghost predicate UserShown<T>(e: Env<T>, r: nat, now: nat, begun: bool, user: map<nat, Term>, recv: nat -> T)
    requires Valid(e.p) && r < e.p.n
  {
    && (forall k: nat, x: nat :: UserByte(e, r, now, user, recv, k, x))
    && (begun ==> forall x: nat :: OwnByte(e, r, now, recv, x))
  }

  ghost predicate RankShown<T>(e: Env<T>, s: State, begun: seq<bool>, w: World<T>, r: nat)
    requires Valid(e.p) && Shape(e.p, s) && Sized(e.p.n, w) && r < e.p.n == |begun|
  {
    && Shown(e, s.inb[r], w.inb[r]) && Shown(e, s.out[r], w.out[r])
    && UserShown(e, r, s.pc[r].k, begun[r], s.user[r], w.recv[r])
    && (!begun[r] ==> s.pc[r] == Begin(e.p, r, 0))
  }

  ghost predicate Sim<T>(e: Env<T>, s: State, begun: seq<bool>, w: World<T>)
    requires Valid(e.p)
  {
    && Shape(e.p, s) && Sized(e.p.n, w) && |begun| == e.p.n && s.slot == w.slot
    && forall r :: 0 <= r < e.p.n ==> RankShown(e, s, begun, w, r)
  }

  /** Both sides of a slot agree on the length of the piece. */
  ghost predicate LensAgree<T>(e: Env<T>, r: nat, k: nat)
    requires Valid(e.p) && r < e.p.n
  {
    k < |e.p.slots| && RoleAt(e.p, r, k) != Idle ==> e.place(Mate(e.p, r, k), k).len == e.place(r, k).len
  }

  ghost predicate Ok<T>(e: Env<T>) {
    && Valid(e.p)
    && (forall r: nat :: r < e.p.n ==> e.own(r).CopyOwn?)
    && (forall r: nat, k: nat :: r < e.p.n ==> LensAgree(e, r, k))
  }

  // ---- stage by stage --------------------------------------------------------------------------------

  function Run1<T>(e: Env<T>, pc: Pc, w: World<T>, r: nat): (w': World<T>)
    requires Valid(e.p) && Sized(e.p.n, w) && r < e.p.n && pc.k < |e.p.slots| && PcOk(e.p, r, pc)
    ensures Sized(e.p.n, w')
  {
    ExecAll(e.p.n, w, r, e.send, StageOps(e, r, pc))
  }

  lemma ExecOne<T>(n: nat, w: World<T>, r: nat, send: (nat, nat) -> T, op: Op)
    requires Sized(n, w) && r < n
    ensures ExecAll(n, w, r, send, [op]) == Exec(n, w, r, send, op)
  {
  }

  lemma RunIs<T>(e: Env<T>, pc: Pc, w: World<T>, r: nat)
    requires Valid(e.p) && Sized(e.p.n, w) && r < e.p.n && pc.k < |e.p.slots| && PcOk(e.p, r, pc)
    ensures pc.st == Skip ==> Run1(e, pc, w, r) == w
    ensures pc.st != Skip ==> Run1(e, pc, w, r) == Exec(e.p.n, w, r, e.send, StageOps(e, r, pc)[0])
  {
    if pc.st != Skip { ExecOne(e.p.n, w, r, e.send, StageOps(e, r, pc)[0]); }
  }

  /** Rank r goes on; its users' memory, and one receive buffer, may change. */
  lemma Frame<T>(e: Env<T>, s: State, w: World<T>, s': State, w': World<T>, begun: seq<bool>, r: nat, d: nat)
    requires Valid(e.p) && Sim(e, s, begun, w) && Shape(e.p, s') && Sized(e.p.n, w') && r < e.p.n && d < e.p.n
    requires s'.pc == s.pc[r := s'.pc[r]] && s'.slot == w'.slot && begun[r]
    requires s'.inb == s.inb[r := s'.inb[r]] && w'.inb == w.inb[r := w'.inb[r]] && Shown(e, s'.inb[r], w'.inb[r])
    requires s'.out == s.out[d := s'.out[d]] && w'.out == w.out[d := w'.out[d]] && Shown(e, s'.out[d], w'.out[d])
    requires s'.user == s.user[r := s'.user[r]] && w'.recv == w.recv[r := w'.recv[r]]
    requires UserShown(e, r, s'.pc[r].k, true, s'.user[r], w'.recv[r])
    ensures Sim(e, s', begun, w')
  {
    forall t | 0 <= t < e.p.n ensures RankShown(e, s', begun, w', t) { assert RankShown(e, s, begun, w, t); }
  }

  /** A slot in which a rank does not receive leaves its user's memory. */
  lemma Later<T>(e: Env<T>, r: nat, now: nat, user: map<nat, Term>, recv: nat -> T)
    requires Valid(e.p) && r < e.p.n && UserShown(e, r, now, true, user, recv) && !Receives(e, r, now)
    ensures UserShown(e, r, now + 1, true, user, recv)
  {
    var next := now + 1;
    forall k: nat, x: nat ensures UserByte(e, r, next, user, recv, k, x) {
      assert UserByte(e, r, now, user, recv, k, x);
    }
    forall x: nat ensures OwnByte(e, r, next, recv, x) { assert OwnByte(e, r, now, recv, x); }
  }

  /** A piece is put where it belongs; other bytes stay. */
  lemma PieceGiven<T>(e: Env<T>, r: nat, now: nat, user: map<nat, Term>, user': map<nat, Term>, recv: nat -> T,
      recv': nat -> T, m: nat -> T)
    requires Ok(e) && r < e.p.n && UserShown(e, r, now, true, user, recv) && Receives(e, r, now)
    requires Shown(e, Leaf(Mate(e.p, r, now), now, r), m)
    requires user' == Record(user, now, Leaf(Mate(e.p, r, now), now, r))
    requires recv' == Copied(recv, e.place(r, now).user, e.place(r, now).len, m, 0)
    ensures UserShown(e, r, now + 1, true, user', recv')
  {
    var next := now + 1;
    assert LensAgree(e, r, now);
    forall k: nat, x: nat ensures UserByte(e, r, next, user', recv', k, x) {
      assert UserByte(e, r, now, user, recv, k, x);
    }
    forall x: nat ensures OwnByte(e, r, next, recv', x) { assert OwnByte(e, r, now, recv, x); }
  }

  lemma QuietSim<T>(e: Env<T>, s: State, begun: seq<bool>, w: World<T>, r: nat)
    requires Ok(e) && Sim(e, s, begun, w) && At(e.p, s, r) && begun[r]
    requires s.pc[r].st == AwaitReady || s.pc[r].st == AwaitData || s.pc[r].st == NotifyReady
    ensures Sim(e, Apply(e.p, s, r), begun, Run1(e, s.pc[r], w, r))
  {
    RunIs(e, s.pc[r], w, r);
    assert RankShown(e, s, begun, w, r);
    Frame(e, s, w, Apply(e.p, s, r), Run1(e, s.pc[r], w, r), begun, r, r);
  }

  lemma PassSim<T>(e: Env<T>, s: State, begun: seq<bool>, w: World<T>, r: nat)
    requires Ok(e) && Sim(e, s, begun, w) && At(e.p, s, r) && begun[r]
    requires s.pc[r].st == Skip || s.pc[r].st == NotifyData
    ensures Sim(e, Apply(e.p, s, r), begun, Run1(e, s.pc[r], w, r))
  {
    RunIs(e, s.pc[r], w, r);
    assert RankShown(e, s, begun, w, r);
    Later(e, r, s.pc[r].k, s.user[r], w.recv[r]);
    Frame(e, s, w, Apply(e.p, s, r), Run1(e, s.pc[r], w, r), begun, r, r);
  }

  lemma LoadSim<T>(e: Env<T>, s: State, begun: seq<bool>, w: World<T>, r: nat)
    requires Ok(e) && Sim(e, s, begun, w) && At(e.p, s, r) && begun[r] && s.pc[r].st == Load
    ensures Sim(e, Apply(e.p, s, r), begun, Run1(e, s.pc[r], w, r))
  {
    RunIs(e, s.pc[r], w, r);
    assert RankShown(e, s, begun, w, r);
    Frame(e, s, w, Apply(e.p, s, r), Run1(e, s.pc[r], w, r), begun, r, r);
  }

  lemma PushSim<T>(e: Env<T>, s: State, begun: seq<bool>, w: World<T>, r: nat)
    requires Ok(e) && Sim(e, s, begun, w) && Inv(e.p, s) && At(e.p, s, r) && begun[r] && s.pc[r].st == Push
    ensures Sim(e, Apply(e.p, s, r), begun, Run1(e, s.pc[r], w, r))
  {
    RunIs(e, s.pc[r], w, r);
    assert RankShown(e, s, begun, w, r) && Loaded(e.p, s, r);
    Frame(e, s, w, Apply(e.p, s, r), Run1(e, s.pc[r], w, r), begun, r, Mate(e.p, r, s.pc[r].k));
  }

  lemma ArrivedAt(p: Exchange, s: State, r: nat)
    requires Inv(p, s) && At(p, s, r) && s.pc[r].st == CopyOut
    ensures s.out[r] == Leaf(Mate(p, r, s.pc[r].k), s.pc[r].k, r)
  {
    var k := s.pc[r].k;
    var f := Mate(p, r, k);
    PairsBothWays(p, r, f, k);
    assert Paired(p, s, r, f, k) && Arrived(p, s, f, k);
    assert PcOk(p, f, s.pc[f]);
  }

  /** What the last operation of a receiver changes. */
  lemma CopyIs<T>(e: Env<T>, s: State, w: World<T>, r: nat)
    requires Ok(e) && At(e.p, s, r) && Sized(e.p.n, w) && s.pc[r].st == CopyOut
    ensures
      var (at, s', w') := (e.place(r, s.pc[r].k), Apply(e.p, s, r), Run1(e, s.pc[r], w, r));
      && Receives(e, r, s.pc[r].k) && Shape(e.p, s') && s'.pc[r].k == s.pc[r].k + 1
      && s' == s.(pc := s.pc[r := s'.pc[r]], user := s.user[r := Record(s.user[r], s.pc[r].k, s.out[r])])
      && w' == w.(recv := w.recv[r := Copied(w.recv[r], at.user, at.len, w.out[r], 0)])
  {
    RunIs(e, s.pc[r], w, r);
  }

  lemma CopySim<T>(e: Env<T>, s: State, begun: seq<bool>, w: World<T>, r: nat)
    requires Ok(e) && Sim(e, s, begun, w) && At(e.p, s, r) && begun[r] && s.pc[r].st == CopyOut
    requires s.out[r] == Leaf(Mate(e.p, r, s.pc[r].k), s.pc[r].k, r)
    ensures Sim(e, Apply(e.p, s, r), begun, Run1(e, s.pc[r], w, r))
  {
    CopyIs(e, s, w, r);
    assert RankShown(e, s, begun, w, r);
    var (s', w') := (Apply(e.p, s, r), Run1(e, s.pc[r], w, r));
    PieceGiven(e, r, s.pc[r].k, s.user[r], s'.user[r], w.recv[r], w'.recv[r], w.out[r]);
    Frame(e, s, w, s', w', begun, r, r);
  }

  /** A rank that executes the operation of a stage does what the machine's rank does. */
  lemma StageSim<T>(e: Env<T>, s: State, begun: seq<bool>, w: World<T>, r: nat)
    requires Ok(e) && Sim(e, s, begun, w) && Inv(e.p, s) && At(e.p, s, r) && begun[r]
    ensures Sim(e, Apply(e.p, s, r), begun, Run1(e, s.pc[r], w, r))
  {
    match s.pc[r].st
    case Load => LoadSim(e, s, begun, w, r);
    case Push => PushSim(e, s, begun, w, r);
    case CopyOut => ArrivedAt(e.p, s, r); CopySim(e, s, begun, w, r);
    case Skip => PassSim(e, s, begun, w, r);
    case NotifyData => PassSim(e, s, begun, w, r);
    case _ => QuietSim(e, s, begun, w, r);
  }

  /** The copy of the own data comes first; nothing has been received then. */
  lemma OwnSim<T>(e: Env<T>, s: State, begun: seq<bool>, w: World<T>, r: nat)
    requires Ok(e) && Sim(e, s, begun, w) && Inv(e.p, s) && r < e.p.n && !begun[r]
    requires e.own(r).CopyOwn?
    ensures Sim(e, s, begun[r := true], Exec(e.p.n, w, r, e.send, e.own(r)))
  {
    var w' := Exec(e.p.n, w, r, e.send, e.own(r));
    assert RankShown(e, s, begun, w, r);
    var (now, user, recv) := (s.pc[r].k, s.user[r], w'.recv[r]);
    forall k: nat, x: nat ensures UserByte(e, r, now, user, recv, k, x) { }
    forall x: nat ensures OwnByte(e, r, now, recv, x) { }
    var after := begun[r := true];
    forall t | 0 <= t < e.p.n ensures RankShown(e, s, after, w', t) { assert RankShown(e, s, begun, w, t); }
  }

  // ---- whole runs --------------------------------------------------------------------------------------

  /** Where every rank is in its stream, whether it has copied its own data, and what the
      operations so far have done. */
  datatype Config<T> = Config(pc: seq<Pc>, begun: seq<bool>, w: World<T>)

  ghost predicate Fits<T>(e: Env<T>, k: Config<T>)
    requires Ok(e)
  {
    |k.pc| == |k.begun| == e.p.n && Sized(e.p.n, k.w)
  }

  /** Rank r can execute the operation of its stage. */
  ghost predicate Free<T>(e: Env<T>, k: Config<T>, r: nat)
    requires Ok(e)
  {
    && Fits(e, k) && r < e.p.n && k.pc[r].k < |e.p.slots| && PcOk(e.p, r, k.pc[r]) && k.begun[r]
    && forall i :: 0 <= i < |StageOps(e, r, k.pc[r])| ==> Passes(e.p.n, k.w, r, StageOps(e, r, k.pc[r])[i])
  }

  ghost predicate Goes<T>(e: Env<T>, k: Config<T>, k': Config<T>)
    requires Ok(e)
  {
    || (exists r: nat :: Copies(e, k, k', r))
    || (exists r: nat :: Free(e, k, r)
          && k' == Config(k.pc[r := Advance(e.p, r, k.pc[r])], k.begun, Run1(e, k.pc[r], k.w, r)))
  }

  ghost predicate Copies<T>(e: Env<T>, k: Config<T>, k': Config<T>, r: nat)
    requires Ok(e)
  {
    && MayCopy(e, k, r)
    && k' == Config(k.pc, k.begun[r := true], Exec(e.p.n, k.w, r, e.send, e.own(r)))
  }

  /** Any buffer contents, any flags that the counters have reached. */
  ghost predicate Starts<T>(e: Env<T>, k: Config<T>)
    requires Ok(e)
  {
    && Fits(e, k)
    && (forall r :: 0 <= r < e.p.n ==> k.pc[r] == Begin(e.p, r, 0) && !k.begun[r])
    && (forall a, b, q :: 0 <= a < e.p.n && 0 <= b < e.p.n && 0 <= q < SYNC_NUM ==> k.w.slot[b][a][q] <= e.p.base[a][b])
  }

  ghost predicate StreamRun<T>(e: Env<T>, tr: seq<Config<T>>)
    requires Ok(e)
  {
    tr != [] && Starts(e, tr[0]) && forall i :: 0 < i < |tr| ==> Goes(e, tr[i - 1], tr[i])
  }

  lemma WaitsAgree<T>(e: Env<T>, s: State, k: Config<T>, r: nat)
    requires Ok(e) && Sim(e, s, k.begun, k.w) && s.pc == k.pc
    ensures Free(e, k, r) <==> At(e.p, s, r) && Enabled(e.p, s, r) && k.begun[r]
  {
    if At(e.p, s, r) && Awaits(s.pc[r].st) {
      assert Passes(e.p.n, k.w, r, StageOps(e, r, k.pc[r])[0]) <==> Enabled(e.p, s, r);
    }
  }

  function Empty<T>(e: Env<T>, k: Config<T>): State
    requires Ok(e)
  {
    State(k.pc, k.w.slot, seq(e.p.n, _ => Junk), seq(e.p.n, _ => Junk), seq(e.p.n, _ => map[]))
  }

  /** Every run of the streams is a run of the machine, byte by byte. */
  lemma {:induction false} Simulated<T>(e: Env<T>, tr: seq<Config<T>>) returns (abs: seq<State>)
    requires Ok(e) && StreamRun(e, tr)
    ensures abs != [] && Run(e.p, abs) && abs[|abs| - 1].pc == tr[|tr| - 1].pc
    ensures Sim(e, abs[|abs| - 1], tr[|tr| - 1].begun, tr[|tr| - 1].w)
    decreases |tr|
  {
    if |tr| == 1 {
      abs := [Empty(e, tr[0])];
      forall r | 0 <= r < e.p.n ensures RankShown(e, abs[0], tr[0].begun, tr[0].w, r) { }
    } else {
      abs := Simulated(e, tr[..|tr| - 1]);
      assert Goes(e, tr[|tr| - 2], tr[|tr| - 1]);
      RunInv(e.p, abs);
      abs := Follow(e, abs, tr[|tr| - 2], tr[|tr| - 1]);
    }
  }

  lemma Follow<T>(e: Env<T>, abs: seq<State>, k: Config<T>, k': Config<T>) returns (abs': seq<State>)
    requires Ok(e) && abs != [] && Run(e.p, abs) && Inv(e.p, abs[|abs| - 1]) && Goes(e, k, k')
    requires abs[|abs| - 1].pc == k.pc && Sim(e, abs[|abs| - 1], k.begun, k.w)
    ensures abs' != [] && Run(e.p, abs') && abs'[|abs'| - 1].pc == k'.pc
    ensures Sim(e, abs'[|abs'| - 1], k'.begun, k'.w)
  {
    var s := abs[|abs| - 1];
    if r: nat :| Copies(e, k, k', r) {
      OwnSim(e, s, k.begun, k.w, r);
      abs' := abs;
    } else {
      var r: nat :| Free(e, k, r)
        && k' == Config(k.pc[r := Advance(e.p, r, k.pc[r])], k.begun, Run1(e, k.pc[r], k.w, r));
      WaitsAgree(e, s, k, r);
      StageSim(e, s, k.begun, k.w, r);
      RunGrows(e.p, abs, r);
      abs' := abs + [Apply(e.p, s, r)];
    }
  }

  lemma RunGrows(p: Exchange, abs: seq<State>, r: nat)
    requires Valid(p) && abs != [] && Run(p, abs) && At(p, abs[|abs| - 1], r) && Enabled(p, abs[|abs| - 1], r)
    requires Shape(p, Apply(p, abs[|abs| - 1], r))
    ensures Run(p, abs + [Apply(p, abs[|abs| - 1], r)])
  {
    var (s, longer) := (abs[|abs| - 1], abs + [Apply(p, abs[|abs| - 1], r)]);
    assert Rendezvous.Step(p, s, Apply(p, s, r));
    forall i | 0 < i < |longer| ensures Rendezvous.Step(p, longer[i - 1], longer[i]) {
      if i < |abs| { assert Rendezvous.Step(p, abs[i - 1], abs[i]); }
    }
  }

  /** A receiver that has left slot k has the piece that its mate sent it there, byte by
      byte, except where a later slot has received into the same memory. */
  lemma StreamsDeliver<T>(e: Env<T>, tr: seq<Config<T>>, r: nat, k: nat, x: nat)
    requires Ok(e) && StreamRun(e, tr) && r < e.p.n == |tr[|tr| - 1].pc| && Receives(e, r, k)
    requires k < tr[|tr| - 1].pc[r].k && x < e.place(r, k).len
    requires Untouched(e, r, k + 1, tr[|tr| - 1].pc[r].k, e.place(r, k).user + x)
    ensures |tr[|tr| - 1].w.recv| == e.p.n
    ensures tr[|tr| - 1].w.recv[r](e.place(r, k).user + x)
      == e.send(Mate(e.p, r, k), e.place(Mate(e.p, r, k), k).user + x)
  {
    var abs := Simulated(e, tr);
    var (s, w) := (abs[|abs| - 1], tr[|tr| - 1].w);
    RendezvousDelivers(e.p, abs, r, k);
    assert RankShown(e, s, tr[|tr| - 1].begun, w, r);
    assert UserByte(e, r, s.pc[r].k, s.user[r], w.recv[r], k, x);
  }

  /** The rank's own data, except where a slot has received into the same memory. */
  lemma StreamsCopyOwn<T>(e: Env<T>, tr: seq<Config<T>>, r: nat, x: nat)
    requires Ok(e) && StreamRun(e, tr) && r < e.p.n == |tr[|tr| - 1].pc| == |tr[|tr| - 1].begun|
    requires tr[|tr| - 1].begun[r] && e.own(r).CopyOwn? && x < e.own(r).len
    requires Untouched(e, r, 0, tr[|tr| - 1].pc[r].k, e.own(r).dst + x)
    ensures |tr[|tr| - 1].w.recv| == e.p.n
    ensures tr[|tr| - 1].w.recv[r](e.own(r).dst + x) == e.send(r, e.own(r).src + x)
  {
    var abs := Simulated(e, tr);
    var (s, w) := (abs[|abs| - 1], tr[|tr| - 1].w);
    assert RankShown(e, s, tr[|tr| - 1].begun, w, r);
    assert OwnByte(e, r, s.pc[r].k, w.recv[r], x);
  }

  ghost predicate MayCopy<T>(e: Env<T>, k: Config<T>, r: nat)
    requires Ok(e)
  {
    Fits(e, k) && r < e.p.n && !k.begun[r] && e.own(r).CopyOwn?
  }

  ghost predicate SomeoneGoes<T>(e: Env<T>, k: Config<T>)
    requires Ok(e)
  {
    exists r: nat :: Free(e, k, r) || MayCopy(e, k, r)
  }

  /** As long as some rank has operations left, some rank can copy its own data or no wait
      holds it up. */
  lemma StreamsNeverBlock<T>(e: Env<T>, tr: seq<Config<T>>, t: nat)
    requires Ok(e) && StreamRun(e, tr) && t < e.p.n == |tr[|tr| - 1].pc| && tr[|tr| - 1].pc[t].k < |e.p.slots|
    ensures SomeoneGoes(e, tr[|tr| - 1])
  {
    var abs := Simulated(e, tr);
    var (s, k) := (abs[|abs| - 1], tr[|tr| - 1]);
    RendezvousNeverDeadlocks(e.p, abs, t);
    var r: nat :| At(e.p, s, r) && Enabled(e.p, s, r);
    WaitsAgree(e, s, k, r);
    assert Free(e, k, r) || MayCopy(e, k, r);
  }
}
