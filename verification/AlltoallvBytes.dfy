/** Alltoallv on bytes: what the host enqueues are the streams of RendezvousBytes, and they
    carry every byte of every rank's area to the area of its receiver. */
module AlltoallvBytes {
  import opened Arith
  import opened Terms
  import opened Rendezvous
  import opened Alltoallv
  import opened AlltoallvHost
  import opened RendezvousBytes

  /** The ranks' arguments, the numbers of pieces, and the counters at the start. */
  datatype Setup = Setup(n: nat, ds: seq<Data>, pieces: seq<seq<nat>>, width: nat, base: seq<seq<nat>>)

  /** The ranks agree on the elements, and a sender and a receiver on their count. */
  ghost predicate Agreed(u: Setup, a: nat, b: nat)
    requires a < u.n && b < u.n && |u.ds| == u.n && DataOk(u.n, u.ds[a]) && DataOk(u.n, u.ds[b])
  {
    && u.ds[a].typelen == u.ds[b].typelen && u.ds[a].piece == u.ds[b].piece
    && u.ds[a].sendcounts[b] == u.ds[b].recvcounts[a]
  }

  ghost predicate SetupOk(u: Setup) {
    && |u.ds| == |u.base| == u.n && PlanOk(u.n, u.pieces, u.width)
    && (forall r :: 0 <= r < u.n ==> |u.base[r]| == u.n && DataOk(u.n, u.ds[r]))
    && (forall r :: 0 <= r < u.n ==> Agrees(u.ds[r], u.n, r, u.pieces))
    && (forall a, b :: 0 <= a < u.n && 0 <= b < u.n ==> Agreed(u, a, b))
  }

  /** Where a rank has the piece of a role. */
  function PlaceIn(d: Data, n: nat, role: Role): Place
    requires DataOk(n, d)
  {
    if role == Idle || MateOf(role) >= n then Place(0, 0)
    else
      var leg := LegOf(d, n, role.Send?, MateOf(role));
      Place(leg.base + Times(role.piece, MAX_SIZE), Times(PieceLen(leg.count, d.piece, role.piece), d.typelen))
  }

  function ExchangeOf(u: Setup): (p: Exchange)
    requires SetupOk(u)
    ensures Valid(p) && p.n == u.n && p.slots == CallSlots(u.n, u.pieces, u.width, 0)
  {
    ScheduleMatches(u.n, u.pieces, u.width, 0);
    Exchange(u.n, CallSlots(u.n, u.pieces, u.width, 0), u.base)
  }

  function PlaceAt(u: Setup, r: nat, k: nat): Place
    requires SetupOk(u)
  {
    var p := ExchangeOf(u);
    if r < u.n && k < |p.slots| then PlaceIn(u.ds[r], u.n, RoleAt(p, r, k)) else Place(0, 0)
  }

  function OwnAt(u: Setup, r: nat): Op
    requires SetupOk(u)
  {
    if r < u.n then OwnOp(u.ds[r], u.n, r) else CopyOwn(0, 0, 0)
  }

  function EnvOf<T(!new)>(u: Setup, send: (nat, nat) -> T): (e: Env<T>)
    requires SetupOk(u)
    ensures Valid(e.p)
  {
    Env(ExchangeOf(u), (r: nat, k: nat) => PlaceAt(u, r, k), (r: nat) => OwnAt(u, r), send)
  }

  lemma LensMatch<T(!new)>(u: Setup, send: (nat, nat) -> T)
    requires SetupOk(u)
    ensures Ok(EnvOf(u, send))
  {
    var e := EnvOf(u, send);
    forall r: nat, k: nat | r < e.p.n ensures LensAgree(e, r, k) {
      if k < |e.p.slots| && RoleAt(e.p, r, k) != Idle {
        var b := Mate(e.p, r, k);
        PairsBothWays(e.p, r, b, k);
        assert Agreed(u, r, b) && Agreed(u, b, r);
      }
    }
  }

  // ---- the host's streams ------------------------------------------------------------------------

  /** The counters of rank r before slot k. */
  ghost predicate Counters(p: Exchange, r: nat, k: nat, send: seq<nat>, recv: seq<nat>)
    requires Valid(p) && r < p.n && k <= |p.slots|
  {
    && |send| == |recv| == p.n
    && (forall b :: 0 <= b < p.n ==> send[b] == p.base[r][b] + Count(p, r, b, k))
    && (forall b :: 0 <= b < p.n ==> recv[b] == p.base[b][r] + Count(p, b, r, k))
  }

  lemma NextCounters(p: Exchange, r: nat, k: nat, send: seq<nat>, recv: seq<nat>)
    requires Valid(p) && r < p.n && k < |p.slots| && Counters(p, r, k, send, recv)
    ensures Counters(p, r, k + 1, Counted(RoleAt(p, r, k), send), Counted(RoleAt(p, r, k), recv))
  {
    forall b | 0 <= b < p.n ensures Pairs(p, b, r, k) == Pairs(p, r, b, k) { PairsBothWays(p, r, b, k); }
  }

  lemma RoleCallIs<T(!new)>(u: Setup, snd: (nat, nat) -> T, r: nat, k: nat, send: seq<nat>, recv: seq<nat>)
    requires SetupOk(u) && r < u.n && k < |ExchangeOf(u).slots| && Counters(ExchangeOf(u), r, k, send, recv)
    ensures
      var e := EnvOf(u, snd);
      RoleCalls(u.ds[r], u.n, RoleAt(e.p, r, k), send, recv) ==
      if RoleAt(e.p, r, k) == Idle then [] else [CallAt(e, r, k)]
  {
  }

  /** The calls that a rank's roles say are those of its stages. */
  lemma {:induction false} WalkIsCalls<T(!new)>(u: Setup, e: Env<T>, roles: seq<Role>, r: nat, k: nat,
                                                send: seq<nat>, recv: seq<nat>)
    requires SetupOk(u) && e == EnvOf(u, e.send) && r < u.n && k <= |e.p.slots| && Counters(e.p, r, k, send, recv)
    requires |roles| == |e.p.slots| - k && forall j :: 0 <= j < |roles| ==> roles[j] == RoleAt(e.p, r, k + j)
    ensures Walk(u.ds[r], u.n, roles, send, recv) == CallsFrom(e, r, k)
    decreases |roles|
  {
    if roles != [] {
      var role := roles[0];
      assert role == RoleAt(e.p, r, k);
      NextCounters(e.p, r, k, send, recv);
      RoleCallIs(u, e.send, r, k, send, recv);
      WalkIsCalls(u, e, roles[1..], r, k + 1, Counted(role, send), Counted(role, recv));
    }
  }

  /** The roles of rank r, which its own data give it. */
  lemma RolesAre(u: Setup, r: nat) returns (roles: seq<Role>)
    requires SetupOk(u) && r < u.n
    ensures roles == CallRoles(u.ds[r], u.n, r, u.width, 0) && |roles| == |ExchangeOf(u).slots|
    ensures forall k: nat :: k < |roles| ==> roles[k] == RoleAt(ExchangeOf(u), r, k)
  {
    CallRolesAre(u.ds[r], u.n, r, u.pieces, u.width, 0);
    roles := RolesOf(ExchangeOf(u).slots, u.n, r);
  }

  lemma HostWalks(u: Setup, r: nat, send: seq<nat>, recv: seq<nat>) returns (roles: seq<Role>)
    requires SetupOk(u) && r < u.n && |send| == |recv| == u.n
    ensures |roles| == |ExchangeOf(u).slots|
    ensures forall k: nat :: k < |roles| ==> roles[k] == RoleAt(ExchangeOf(u), r, k)
    ensures Walk(u.ds[r], u.n, roles, send, recv) == StepsCalls(u.n, r, u.ds[r], 0, send, recv)
  {
    roles := RolesAre(u, r);
    HostIsProgram(u.ds[r], u.n, r, u.width, 0, send, recv, send, recv);
  }

  lemma RolesWalk<T(!new)>(u: Setup, e: Env<T>, roles: seq<Role>, r: nat, send: seq<nat>, recv: seq<nat>)
    requires SetupOk(u) && e == EnvOf(u, e.send) && r < u.n && Counters(e.p, r, 0, send, recv)
    requires |roles| == |e.p.slots| && forall k: nat :: k < |roles| ==> roles[k] == RoleAt(e.p, r, k)
    ensures Walk(u.ds[r], u.n, roles, send, recv) == CallsFrom(e, r, 0)
  {
    WalkIsCalls(u, e, roles, r, 0, send, recv);
  }

  /** What the host enqueues for rank r after the copy of its own data (`e.own`): the calls
      of its stages, whose operations SendIsStages and RecvIsStages give. */
  lemma HostIsStages<T(!new)>(u: Setup, e: Env<T>, r: nat, send: seq<nat>, recv: seq<nat>)
    requires SetupOk(u) && e == EnvOf(u, e.send) && r < u.n && Counters(e.p, r, 0, send, recv)
    ensures StepsCalls(u.n, r, u.ds[r], 0, send, recv) == CallsFrom(e, r, 0)
  {
    var roles := HostWalks(u, r, send, recv);
    RolesWalk(u, e, roles, r, send, recv);
  }

  // ---- every byte ----------------------------------------------------------------------------------

  /** The element size fills a piece, or the data are one piece. */
  predicate Full(count: nat, piece: nat, typelen: nat) {
    piece > 0 && typelen > 0 && (piece * typelen == MAX_SIZE || count <= piece)
  }

  /** The areas that rank r receives into. */
  ghost predicate AreasApart(d: Data, n: nat)
    requires DataOk(n, d)
  {
    forall a: nat, b: nat :: a < n && b < n && a != b ==>
      d.rdispls[a] + Times(d.recvcounts[a], d.typelen) <= d.rdispls[b]
      || d.rdispls[b] + Times(d.recvcounts[b], d.typelen) <= d.rdispls[a]
  }

  ghost predicate AllFull(d: Data, n: nat)
    requires DataOk(n, d)
  {
    forall a :: 0 <= a < n ==> Full(d.recvcounts[a], d.piece, d.typelen)
  }

  lemma OnePieceOnly(count: nat, piece: nat, q: nat)
    requires 0 < count <= piece && PieceLen(count, piece, q) > 0
    ensures q == 0 && PieceLen(count, piece, q) == count
  {
  }

  /** A piece stays inside its area. */
  lemma PieceInside(count: nat, piece: nat, typelen: nat, q: nat, z: nat)
    requires Full(count, piece, typelen) && z < Times(PieceLen(count, piece, q), typelen)
    ensures Times(q, MAX_SIZE) + z < Times(count, typelen)
  {
    var len := PieceLen(count, piece, q);
    TimesIs(len, typelen);
    if count <= piece { OnePieceOnly(count, piece, q); } else {
      PieceStart(q, piece, typelen);
      TimesAdds(Times(q, piece), len, typelen);
      TimesMono(Times(q, piece) + len, count, typelen);
    }
  }

  lemma TimesMono(a: nat, b: nat, n: nat)
    requires a <= b
    ensures Times(a, n) <= Times(b, n)
  {
    if a < b { TimesStep(a, b, n); }
  }

  lemma PieceStart(q: nat, piece: nat, typelen: nat)
    requires piece * typelen == MAX_SIZE
    ensures Times(q, MAX_SIZE) == Times(Times(q, piece), typelen)
  {
    TimesIs(q, MAX_SIZE);
    TimesIs(q, piece);
    TimesIs(Times(q, piece), typelen);
    assert q * (piece * typelen) == (q * piece) * typelen;
  }

  /** The last slot that receives into a byte. */
  lemma {:induction false} LastCover<T>(e: Env<T>, r: nat, y: nat, k: nat, last: nat) returns (j: nat)
    requires Valid(e.p) && r < e.p.n && k < last && Receives(e, r, k) && Covers(e.place(r, k), y)
    ensures k <= j < last && Receives(e, r, j) && Covers(e.place(r, j), y) && Untouched(e, r, j + 1, last, y)
    decreases last
  {
    if Receives(e, r, last - 1) && Covers(e.place(r, last - 1), y) {
      j := last - 1;
    } else {
      j := LastCover(e, r, y, k, last - 1);
    }
  }

  /** What a slot receives lies in the area of its sender. */
  lemma SlotInArea<T(!new)>(u: Setup, e: Env<T>, r: nat, j: nat, y: nat)
    requires SetupOk(u) && e == EnvOf(u, e.send) && r < u.n && AllFull(u.ds[r], u.n)
    requires Receives(e, r, j) && Covers(e.place(r, j), y)
    ensures
      var (d, f) := (u.ds[r], RoleAt(e.p, r, j).from);
      f < u.n && f != r && d.rdispls[f] <= y < d.rdispls[f] + Times(d.recvcounts[f], d.typelen)
  {
    var (d, role) := (u.ds[r], RoleAt(e.p, r, j));
    PieceInside(d.recvcounts[role.from], d.piece, d.typelen, role.piece,
                y - d.rdispls[role.from] - Times(role.piece, MAX_SIZE));
  }

  /** Sender and receiver of a slot have its piece at the same place of their areas. */
  lemma SameOffset<T(!new)>(u: Setup, e: Env<T>, r: nat, j: nat)
    requires SetupOk(u) && e == EnvOf(u, e.send) && r < u.n && Receives(e, r, j)
    ensures
      var f := RoleAt(e.p, r, j).from;
      && f < u.n && f == Mate(e.p, r, j)
      && e.place(f, j).user - u.ds[f].sdispls[r] == e.place(r, j).user - u.ds[r].rdispls[f]
  {
    var f := RoleAt(e.p, r, j).from;
    assert RoleAt(e.p, f, j) == Send(r, RoleAt(e.p, r, j).piece);
  }

  /** Every byte that rank f has for rank r has a slot. */
  lemma SlotOfByte<T(!new)>(u: Setup, e: Env<T>, r: nat, f: nat, x: nat) returns (k: nat)
    requires SetupOk(u) && e == EnvOf(u, e.send) && r < u.n && f < u.n && f != r
    requires Full(u.ds[r].recvcounts[f], u.ds[r].piece, u.ds[r].typelen)
    requires x < Times(u.ds[r].recvcounts[f], u.ds[r].typelen)
    ensures Receives(e, r, k) && Covers(e.place(r, k), u.ds[r].rdispls[f] + x)
  {
    var d := u.ds[r];
    var count := d.recvcounts[f];
    TimesIs(count, d.typelen);
    CarriedByOne(count, d.piece, d.typelen, x);
    var q: nat :| q < PiecesFrom(count, d.piece, 0) && Carries(count, d.piece, d.typelen, q, x);
    assert u.pieces[f][r] == LegLen(LegOf(d, u.n, false, f), d);
    k := SlotOfPiece(u.n, u.pieces, u.width, f, r, q);
    TimesIs(PieceLen(count, d.piece, q), d.typelen);
  }

  /** Rank r has executed its whole stream. */
  ghost predicate Executed<T>(e: Env<T>, k: Config<T>, r: nat) {
    Ok(e) && Fits(e, k) && r < e.p.n && k.begun[r] && k.pc[r].k == |e.p.slots|
  }

  lemma OwnCopied<T(!new)>(u: Setup, e: Env<T>, tr: seq<Config<T>>, r: nat, x: nat)
    requires SetupOk(u) && e == EnvOf(u, e.send) && Ok(e) && StreamRun(e, tr) && Executed(e, tr[|tr| - 1], r)
    requires AllFull(u.ds[r], u.n) && AreasApart(u.ds[r], u.n) && x < Times(u.ds[r].recvcounts[r], u.ds[r].typelen)
    ensures tr[|tr| - 1].w.recv[r](u.ds[r].rdispls[r] + x) == e.send(r, u.ds[r].sdispls[r] + x)
  {
    assert Agreed(u, r, r);
    var y := u.ds[r].rdispls[r] + x;
    forall j: nat | 0 <= j < |e.p.slots| && Receives(e, r, j) ensures !Covers(e.place(r, j), y) {
      if Covers(e.place(r, j), y) { SlotInArea(u, e, r, j, y); }
    }
    StreamsCopyOwn(e, tr, r, x);
  }

  /** The last slot that receives byte x of what f has for r. */
  lemma SlotFor<T(!new)>(u: Setup, e: Env<T>, r: nat, f: nat, x: nat) returns (j: nat)
    requires SetupOk(u) && e == EnvOf(u, e.send) && r < u.n && f < u.n && f != r
    requires AllFull(u.ds[r], u.n) && AreasApart(u.ds[r], u.n) && x < Times(u.ds[r].recvcounts[f], u.ds[r].typelen)
    ensures
      var y := u.ds[r].rdispls[f] + x;
      && Receives(e, r, j) && Covers(e.place(r, j), y) && Untouched(e, r, j + 1, |e.p.slots|, y)
      && Mate(e.p, r, j) == f && e.place(f, j).user + (y - e.place(r, j).user) == u.ds[f].sdispls[r] + x
  {
    var y := u.ds[r].rdispls[f] + x;
    var k := SlotOfByte(u, e, r, f, x);
    j := LastCover(e, r, y, k, |e.p.slots|);
    SlotInArea(u, e, r, j, y);
    SameOffset(u, e, r, j);
  }

  lemma OtherReceived<T(!new)>(u: Setup, e: Env<T>, tr: seq<Config<T>>, r: nat, f: nat, x: nat)
    requires SetupOk(u) && e == EnvOf(u, e.send) && Ok(e) && StreamRun(e, tr) && Executed(e, tr[|tr| - 1], r)
    requires f < u.n && f != r && AllFull(u.ds[r], u.n) && AreasApart(u.ds[r], u.n)
    requires x < Times(u.ds[r].recvcounts[f], u.ds[r].typelen)
    ensures tr[|tr| - 1].w.recv[r](u.ds[r].rdispls[f] + x) == e.send(f, u.ds[f].sdispls[r] + x)
  {
    var j := SlotFor(u, e, r, f, x);
    StreamsDeliver(e, tr, r, j, u.ds[r].rdispls[f] + x - e.place(r, j).user);
  }

  /** Alltoallv on bytes: when rank r has executed its stream, its area for every rank f
      holds what f has for r, byte by byte; its own data are copied too. */
  lemma StreamsExchange<T(!new)>(u: Setup, e: Env<T>, tr: seq<Config<T>>, r: nat, f: nat, x: nat)
    requires SetupOk(u) && e == EnvOf(u, e.send) && Ok(e) && StreamRun(e, tr) && Executed(e, tr[|tr| - 1], r)
    requires f < u.n && AllFull(u.ds[r], u.n) && AreasApart(u.ds[r], u.n)
    requires x < Times(u.ds[r].recvcounts[f], u.ds[r].typelen)
    ensures tr[|tr| - 1].w.recv[r](u.ds[r].rdispls[f] + x) == e.send(f, u.ds[f].sdispls[r] + x)
  {
    if f == r { OwnCopied(u, e, tr, r, x); } else { OtherReceived(u, e, tr, r, f, x); }
  }
}
