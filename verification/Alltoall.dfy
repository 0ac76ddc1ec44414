/** The pairwise Alltoall of src/proc.cc: in round i every rank sends to the rank i places
    after it and receives from the rank i places before it, through one receive buffer.
    Permission to send and arrival of data are announced by two-slot counters that are
    waited for with equality (src/misc/barrier.cc). */
module Alltoall {
  import opened Arith
  import opened TwoSlots

  const MAX_SIZE: nat := 64 * 1024 * 1024

  function Peer(n: nat, r: nat, i: nat): (p: nat)
    requires r < n && 0 < i < n
    ensures p < n && p != r
  {
    if r + i < n then r + i else r + i - n
  }

  function From(n: nat, r: nat, i: nat): (f: nat)
    requires r < n && 0 < i < n
    ensures f < n && f != r && Peer(n, f, i) == r
  {
    if i <= r then r - i else r + n - i
  }

  /** A piece of a round: `len` bytes at `off` of every block. */
  datatype Piece = Piece(round: nat, off: nat, len: nat)

  function RoundPieces(i: nat, size: nat, off: nat): seq<Piece>
    decreases size - off
  {
    if off >= size then []
    else
      var len := if off + MAX_SIZE > size then size - off else MAX_SIZE;
      [Piece(i, off, len)] + RoundPieces(i, size, off + len)
  }

  /** All pieces of rounds i .. n-1. */
  function Pieces(n: nat, size: nat, i: nat): seq<Piece>
    requires 0 < i
    decreases n - i
  {
    if i >= n then [] else RoundPieces(i, size, 0) + Pieces(n, size, i + 1)
  }

  /** Ranks, the pieces of all calls, the counter sendcntall of every rank for every other
      at the start, the ranks that meet in tcclDevSyncCard, and the ring's previous rank. */
  datatype Exchange = Exchange(n: nat, pieces: seq<Piece>, base: seq<seq<nat>>, mates: seq<set<nat>>, prev: seq<nat>)

  ghost predicate Valid(p: Exchange) {
    && 2 <= p.n && |p.base| == |p.mates| == |p.prev| == p.n
    && (forall a :: 0 <= a < p.n ==> |p.base[a]| == p.n)
    && (forall k :: 0 <= k < |p.pieces| ==> 0 < p.pieces[k].round < p.n)
    && (forall r :: 0 <= r < p.n ==> p.prev[r] < p.n)
  }

  function PeerAt(p: Exchange, r: nat, k: nat): (b: nat)
    requires Valid(p) && r < p.n && k < |p.pieces|
    ensures b < p.n && b != r && FromAt(p, b, k) == r
  {
    Peer(p.n, r, p.pieces[k].round)
  }

  function FromAt(p: Exchange, r: nat, k: nat): (b: nat)
    requires Valid(p) && r < p.n && k < |p.pieces|
    ensures b < p.n && b != r && Peer(p.n, b, p.pieces[k].round) == r
  {
    From(p.n, r, p.pieces[k].round)
  }

  /** Notifications from rank a to rank b in pieces 0..k-1: one when a lets b send, one when
      a has sent to b. */
  function Count(p: Exchange, a: nat, b: nat, k: nat): nat
    requires Valid(p) && a < p.n && b < p.n && k <= |p.pieces|
  {
    if k == 0 then 0 else Count(p, a, b, k - 1) + Lets(p, a, b, k - 1) + Sends(p, a, b, k - 1)
  }

  /** In piece k rank a lets b send (1 or 0). */
  function Lets(p: Exchange, a: nat, b: nat, k: nat): nat
    requires Valid(p) && a < p.n && b < p.n && k < |p.pieces|
  {
    if FromAt(p, a, k) == b then 1 else 0
  }

  /** In piece k rank a sends to b (1 or 0). */
  function Sends(p: Exchange, a: nat, b: nat, k: nat): nat
    requires Valid(p) && a < p.n && b < p.n && k < |p.pieces|
  {
    if PeerAt(p, a, k) == b then 1 else 0
  }

  lemma {:induction false} CountMono(p: Exchange, a: nat, b: nat, k: nat, j: nat)
    requires Valid(p) && a < p.n && b < p.n && k <= j <= |p.pieces|
    ensures Count(p, a, b, k) <= Count(p, a, b, j)
    decreases j
  {
    if k < j { CountMono(p, a, b, k, j - 1); }
  }

  // ---- the program of a rank ------------------------------------------------------------

  datatype Stage = NotifyFrom | Load | AwaitPeer | Push | NotifyPeer | AwaitFrom | CopyOut | Meet | Ring

  datatype Pc = Pc(k: nat, st: Stage)

  datatype Op =
    | CopyOwn(user: nat, len: nat)                 // a rank's own block
    | Notify(to: nat, slot: nat, value: nat)
    | WaitEq(from: nat, slot: nat, value: nat)
    | LoadIn(user: nat, len: nat)
    | PushData(to: nat, len: nat)
    | ToUser(user: nat, len: nat)
    | CardBarrier
    | RingSend(value: nat) | RingWait(value: nat)

  /** The number that a notification of a to b bears, and the wait for it. */
  function ReadyNo(p: Exchange, a: nat, b: nat, k: nat): nat
    requires Valid(p) && a < p.n && b < p.n && k < |p.pieces|
  {
    p.base[a][b] + Count(p, a, b, k) + 1
  }

  function DataNo(p: Exchange, a: nat, b: nat, k: nat): nat
    requires Valid(p) && a < p.n && b < p.n && k < |p.pieces|
  {
    p.base[a][b] + Count(p, a, b, k) + Lets(p, a, b, k) + 1
  }

  /** A piece on a rank's stream, from the numbers of its two notifications and two waits. */
  function RawOps(peer: nat, from: nat, q: Piece, size: nat, ring: nat, v1: nat, v2: nat, v3: nat, v4: nat): seq<Op> {
    [Notify(from, v1 % SYNC_NUM, v1), LoadIn(Times(peer, size) + q.off, q.len), WaitEq(peer, v2 % SYNC_NUM, v2),
     PushData(peer, q.len), Notify(peer, v3 % SYNC_NUM, v3), WaitEq(from, v4 % SYNC_NUM, v4),
     ToUser(Times(from, size) + q.off, q.len), CardBarrier, RingSend(ring), RingWait(ring)]
  }

  /** `size` is the size of a block, `ring` the ring counter. */
  function PieceOps(p: Exchange, r: nat, size: nat, ring: nat, k: nat): seq<Op>
    requires Valid(p) && r < p.n && k < |p.pieces|
  {
    var (peer, from) := (PeerAt(p, r, k), FromAt(p, r, k));
    RawOps(peer, from, p.pieces[k], size, ring + 1, ReadyNo(p, r, from, k), ReadyNo(p, peer, r, k),
           DataNo(p, r, peer, k), DataNo(p, from, r, k))
  }

  /** Pieces k and later, from ring counter `ring`. */
  function RankOps(p: Exchange, r: nat, size: nat, ring: nat, k: nat): seq<Op>
    requires Valid(p) && r < p.n && k <= |p.pieces|
    decreases |p.pieces| - k
  {
    if k == |p.pieces| then [] else PieceOps(p, r, size, ring, k) + RankOps(p, r, size, ring + 1, k + 1)
  }

  // ---- the host loop ------------------------------------------------------------------------

  class PairComm {
    const nranks: nat
    const rank: nat
    var sendcntall: seq<nat>
    var recvcntall: seq<nat>
    var all2allcnt: nat
    var stream: seq<Op>

    constructor (nranks: nat, rank: nat)
      requires rank < nranks
      ensures this.nranks == nranks && this.rank == rank && all2allcnt == 0 && stream == []
      ensures |sendcntall| == |recvcntall| == nranks
      ensures forall b :: 0 <= b < nranks ==> sendcntall[b] == recvcntall[b] == 0
    {
      this.nranks, this.rank, all2allcnt, stream := nranks, rank, 0, [];
      sendcntall, recvcntall := seq(nranks, _ => 0), seq(nranks, _ => 0);
    }

    method SendRecvNotify(peer: nat)
      requires peer < |sendcntall|
      modifies this`sendcntall, this`stream
      ensures sendcntall == old(sendcntall)[peer := old(sendcntall[peer]) + 1]
      ensures stream == old(stream) + [Notify(peer, sendcntall[peer] % SYNC_NUM, sendcntall[peer])]
    {
      var value := sendcntall[peer] + 1;
      sendcntall := sendcntall[peer := value];
      stream := stream + [Notify(peer, value % SYNC_NUM, value)];
    }

    method SendRecvWait(peer: nat)
      requires peer < |recvcntall|
      modifies this`recvcntall, this`stream
      ensures recvcntall == old(recvcntall)[peer := old(recvcntall[peer]) + 1]
      ensures stream == old(stream) + [WaitEq(peer, recvcntall[peer] % SYNC_NUM, recvcntall[peer])]
    {
      var value := recvcntall[peer] + 1;
      recvcntall := recvcntall[peer := value];
      stream := stream + [WaitEq(peer, value % SYNC_NUM, value)];
    }

    /** The body of the inner loop. */
    method OnePiece(peer: nat, recvStep: nat, size: nat, q: Piece, ghost send: seq<nat>, ghost recv: seq<nat>)
      requires sendcntall == send && recvcntall == recv && peer < |send| && recvStep < |send| == |recv|
      modifies this
      ensures sendcntall == Bump(Bump(send, recvStep), peer) && recvcntall == Bump(Bump(recv, peer), recvStep)
      ensures all2allcnt == old(all2allcnt) + 1
      ensures stream == old(stream) + RawOps(peer, recvStep, q, size, all2allcnt, send[recvStep] + 1, recv[peer] + 1,
                                             Bump(send, recvStep)[peer] + 1, Bump(recv, peer)[recvStep] + 1)
    {
      TimesIs(peer, size);
      TimesIs(recvStep, size);
      SendRecvNotify(recvStep);
      stream := stream + [LoadIn(peer * size + q.off, q.len)];
      SendRecvWait(peer);
      stream := stream + [PushData(peer, q.len)];
      SendRecvNotify(peer);
      SendRecvWait(recvStep);
      Finish(recvStep * size + q.off, q.len);
    }

    method Finish(dst: nat, len: nat)
      modifies this`stream, this`all2allcnt
      ensures all2allcnt == old(all2allcnt) + 1
      ensures stream == old(stream) + [ToUser(dst, len), CardBarrier, RingSend(all2allcnt), RingWait(all2allcnt)]
    {
      stream := stream + [ToUser(dst, len)] + [CardBarrier];
      all2allcnt := all2allcnt + 1;
      stream := stream + [RingSend(all2allcnt)] + [RingWait(all2allcnt)];
    }

    method Partners(i: nat) returns (peer: nat, recvStep: nat)
      requires 0 < i < nranks && rank < nranks
      ensures peer == Peer(nranks, rank, i) && recvStep == From(nranks, rank, i)
    {
      SmallMod(nranks, rank + i);
      SmallMod(nranks, rank - i + nranks);
      peer, recvStep := (rank + i) % nranks, (rank - i + nranks) % nranks;
    }

    /** Every piece of every round. */
    method Alltoall(size: nat)
      requires rank < nranks == |sendcntall| == |recvcntall|
      modifies this
      ensures |sendcntall| == |recvcntall| == nranks
      ensures
        var pieces := Pieces(nranks, size, 1);
        && RoundsOk(nranks, pieces)
        && stream == old(stream) + [CopyOwn(Times(rank, size), size)]
             + HostOps(nranks, rank, size, old(sendcntall), old(recvcntall), old(all2allcnt), pieces)
    {
      TimesIs(rank, size);
      stream := stream + [CopyOwn(rank * size, size)];
      Rounds(size);
    }

    method Rounds(size: nat)
      requires rank < nranks == |sendcntall| == |recvcntall|
      modifies this
      ensures |sendcntall| == |recvcntall| == nranks
      ensures
        var pieces := Pieces(nranks, size, 1);
        && RoundsOk(nranks, pieces)
        && stream == old(stream)
             + HostOps(nranks, rank, size, old(sendcntall), old(recvcntall), old(all2allcnt), pieces)
    {
      var i := 1;
      ghost var pieces := Pieces(nranks, size, 1);
      PiecesOk(nranks, size, 1);
      ghost var goal := stream + HostOps(nranks, rank, size, sendcntall, recvcntall, all2allcnt, pieces);
      while i < nranks
        invariant 0 < i && |sendcntall| == |recvcntall| == nranks && RoundsOk(nranks, Pieces(nranks, size, i))
        invariant stream + HostOps(nranks, rank, size, sendcntall, recvcntall, all2allcnt, Pieces(nranks, size, i))
          == goal
      {
        PiecesOk(nranks, size, i + 1);
        Round(i, size, Pieces(nranks, size, i + 1), goal);
        i := i + 1;
      }
    }

    /** One piece off the front of what is left; `tail` is the rest. */
    method NextPiece(peer: nat, recvStep: nat, size: nat, q: Piece, ghost tail: seq<Op>, ghost goal: seq<Op>)
      requires 0 < q.round < nranks && rank < nranks == |sendcntall| == |recvcntall|
      requires peer == Peer(nranks, rank, q.round) && recvStep == From(nranks, rank, q.round)
      requires stream + (HeadOps(nranks, rank, size, sendcntall, recvcntall, all2allcnt, q) + tail) == goal
      modifies this
      ensures sendcntall == Bump(Bump(old(sendcntall), recvStep), peer)
      ensures recvcntall == Bump(Bump(old(recvcntall), peer), recvStep)
      ensures all2allcnt == old(all2allcnt) + 1 && stream + tail == goal
    {
      OnePiece(peer, recvStep, size, q, sendcntall, recvcntall);
    }

    method OneSlice(peer: nat, recvStep: nat, size: nat, q: Piece, ghost next: seq<Piece>, ghost goal: seq<Op>)
      requires 0 < q.round < nranks && rank < nranks == |sendcntall| == |recvcntall|
      requires peer == Peer(nranks, rank, q.round) && recvStep == From(nranks, rank, q.round)
      requires RoundsOk(nranks, [q] + next) && RoundsOk(nranks, next)
      requires stream + HostOps(nranks, rank, size, sendcntall, recvcntall, all2allcnt, [q] + next) == goal
      modifies this
      ensures |sendcntall| == |recvcntall| == nranks
      ensures stream + HostOps(nranks, rank, size, sendcntall, recvcntall, all2allcnt, next) == goal
    {
      ghost var (send, recv) := (Bump(Bump(sendcntall, recvStep), peer), Bump(Bump(recvcntall, peer), recvStep));
      ghost var head := HeadOps(nranks, rank, size, sendcntall, recvcntall, all2allcnt, q);
      ghost var tail := HostOps(nranks, rank, size, send, recv, all2allcnt + 1, next);
      HeadTail(nranks, rank, size, sendcntall, recvcntall, all2allcnt, q, next, head, tail);
      NextPiece(peer, recvStep, size, q, tail, goal);
    }

    method Round(i: nat, size: nat, ghost more: seq<Piece>, ghost goal: seq<Op>)
      requires 0 < i < nranks && rank < nranks == |sendcntall| == |recvcntall|
      requires RoundsOk(nranks, RoundPieces(i, size, 0) + more) && RoundsOk(nranks, more)
      requires stream + HostOps(nranks, rank, size, sendcntall, recvcntall, all2allcnt,
        RoundPieces(i, size, 0) + more) == goal
      modifies this
      ensures |sendcntall| == |recvcntall| == nranks
      ensures stream + HostOps(nranks, rank, size, sendcntall, recvcntall, all2allcnt, more) == goal
    {
      var peer, recvStep := Partners(i);
      var sliceSize, off := MAX_SIZE, 0;
      ghost var rest := RoundPieces(i, size, 0) + more;
      while off < size
        invariant |sendcntall| == |recvcntall| == nranks && RoundsOk(nranks, rest)
        invariant off < size ==> sliceSize == MAX_SIZE
        invariant rest == RoundPieces(i, size, off) + more
        invariant stream + HostOps(nranks, rank, size, sendcntall, recvcntall, all2allcnt, rest) == goal
        decreases size - off
      {
        if off + sliceSize > size { sliceSize := size - off; }
        ghost var next := SplitOff(nranks, i, size, off, sliceSize, rest, more);
        OneSlice(peer, recvStep, size, Piece(i, off, sliceSize), next, goal);
        off := off + sliceSize;
        rest := next;
      }
      assert rest == more;
    }
  }

  lemma SplitOff(n: nat, i: nat, size: nat, off: nat, len: nat, rest: seq<Piece>, more: seq<Piece>)
      returns (next: seq<Piece>)
    requires off < size && len == (if off + MAX_SIZE > size then size - off else MAX_SIZE)
    requires rest == RoundPieces(i, size, off) + more && RoundsOk(n, rest)
    ensures rest == [Piece(i, off, len)] + next && next == RoundPieces(i, size, off + len) + more && RoundsOk(n, next)
  {
    next := RoundPieces(i, size, off + len) + more;
    assert rest == [Piece(i, off, len)] + next;
    assert forall k :: 0 <= k < |next| ==> next[k] == rest[k + 1];
  }

  function Bump(cnt: seq<nat>, b: nat): (r: seq<nat>)
    requires b < |cnt|
    ensures |r| == |cnt| && forall c :: 0 <= c < |cnt| ==> r[c] == cnt[c] + if c == b then 1 else 0
  {
    cnt[b := cnt[b] + 1]
  }

  ghost predicate RoundsOk(n: nat, pieces: seq<Piece>) {
    forall k :: 0 <= k < |pieces| ==> 0 < pieces[k].round < n
  }

  lemma {:induction false} RoundPiecesOk(i: nat, size: nat, off: nat)
    ensures forall k :: 0 <= k < |RoundPieces(i, size, off)| ==> RoundPieces(i, size, off)[k].round == i
    decreases size - off
  {
    if off < size {
      var len := if off + MAX_SIZE > size then size - off else MAX_SIZE;
      RoundPiecesOk(i, size, off + len);
    }
  }

  lemma {:induction false} PiecesOk(n: nat, size: nat, i: nat)
    requires 0 < i
    ensures RoundsOk(n, Pieces(n, size, i))
    decreases n - i
  {
    if i < n {
      RoundPiecesOk(i, size, 0);
      PiecesOk(n, size, i + 1);
    }
  }

  /** The stream that the counters produce. */
  ghost function HostOps(n: nat, r: nat, size: nat, send: seq<nat>, recv: seq<nat>, ring: nat,
      pieces: seq<Piece>): seq<Op>
    requires r < n == |send| == |recv| && RoundsOk(n, pieces)
    decreases |pieces|
  {
    if pieces == [] then []
    else
      var q := pieces[0];
      var (peer, from) := (Peer(n, r, q.round), From(n, r, q.round));
      RawOps(peer, from, q, size, ring + 1, send[from] + 1, recv[peer] + 1, Bump(send, from)[peer] + 1,
        Bump(recv, peer)[from] + 1)
      + HostOps(n, r, size, Bump(Bump(send, from), peer), Bump(Bump(recv, peer), from), ring + 1, pieces[1..])
  }

  lemma HostHead(n: nat, r: nat, size: nat, send: seq<nat>, recv: seq<nat>, ring: nat, q: Piece, next: seq<Piece>)
    requires r < n == |send| == |recv| && RoundsOk(n, [q] + next) && 0 < q.round < n
    ensures RoundsOk(n, next)
    ensures
      var (peer, from) := (Peer(n, r, q.round), From(n, r, q.round));
      HostOps(n, r, size, send, recv, ring, [q] + next) ==
      RawOps(peer, from, q, size, ring + 1, send[from] + 1, recv[peer] + 1, Bump(send, from)[peer] + 1,
        Bump(recv, peer)[from] + 1)
      + HostOps(n, r, size, Bump(Bump(send, from), peer), Bump(Bump(recv, peer), from), ring + 1, next)
  {
    assert forall k :: 0 <= k < |next| ==> next[k] == ([q] + next)[k + 1];
    assert ([q] + next)[1..] == next;
  }

  /** The counters of rank r after k pieces. */
  ghost predicate Counted(p: Exchange, r: nat, k: nat, send: seq<nat>, recv: seq<nat>)
    requires Valid(p) && r < p.n && k <= |p.pieces|
  {
    && |send| == |recv| == p.n
    && (forall b :: 0 <= b < p.n ==> send[b] == p.base[r][b] + Count(p, r, b, k))
    && (forall b :: 0 <= b < p.n ==> recv[b] == p.base[b][r] + Count(p, b, r, k))
  }

  /** The host fills the stream with the program that the ranks of AlltoallMachine run. */
  lemma {:induction false} HostIsProgram(p: Exchange, r: nat, size: nat, ring: nat, k: nat, send: seq<nat>,
      recv: seq<nat>, pieces: seq<Piece>)
    requires Valid(p) && r < p.n && k <= |p.pieces| && Counted(p, r, k, send, recv) && pieces == p.pieces[k..]
      && RoundsOk(p.n, pieces)
    ensures HostOps(p.n, r, size, send, recv, ring, pieces) == RankOps(p, r, size, ring, k)
    decreases |p.pieces| - k
  {
    if k < |p.pieces| {
      var rest := RestOk(p.n, p.pieces, k, pieces);
      var next := CountsBump(p, r, k, send, recv);
      HostIsProgram(p, r, size, ring + 1, k + 1, next.0, next.1, rest);
      var head := HeadIsPiece(p, r, size, ring, k, send, recv);
      HeadTail(p.n, r, size, send, recv, ring, p.pieces[k], rest, head, RankOps(p, r, size, ring + 1, k + 1));
    }
  }

  lemma RestOk(n: nat, all: seq<Piece>, k: nat, pieces: seq<Piece>) returns (rest: seq<Piece>)
    requires k < |all| && pieces == all[k..] && RoundsOk(n, pieces)
    ensures pieces == [all[k]] + rest && rest == all[k + 1..] && RoundsOk(n, rest)
  {
    rest := pieces[1..];
    assert forall i :: 0 <= i < |rest| ==> rest[i] == pieces[i + 1];
  }

  /** The first piece of the counters' stream. */
  ghost function HeadOps(n: nat, r: nat, size: nat, send: seq<nat>, recv: seq<nat>, ring: nat, q: Piece): seq<Op>
    requires r < n == |send| == |recv| && 0 < q.round < n
  {
    var (peer, from) := (Peer(n, r, q.round), From(n, r, q.round));
    RawOps(peer, from, q, size, ring + 1, send[from] + 1, recv[peer] + 1, Bump(send, from)[peer] + 1,
      Bump(recv, peer)[from] + 1)
  }

  lemma HeadTail(n: nat, r: nat, size: nat, send: seq<nat>, recv: seq<nat>, ring: nat, q: Piece, next: seq<Piece>,
      head: seq<Op>, tail: seq<Op>)
    requires r < n == |send| == |recv| && RoundsOk(n, next) && RoundsOk(n, [q] + next) && 0 < q.round < n
    requires head == HeadOps(n, r, size, send, recv, ring, q)
    requires
      var (peer, from) := (Peer(n, r, q.round), From(n, r, q.round));
      HostOps(n, r, size, Bump(Bump(send, from), peer), Bump(Bump(recv, peer), from), ring + 1, next) == tail
    ensures HostOps(n, r, size, send, recv, ring, [q] + next) == head + tail
  {
    HostHead(n, r, size, send, recv, ring, q, next);
  }

  lemma HeadIsPiece(p: Exchange, r: nat, size: nat, ring: nat, k: nat, send: seq<nat>, recv: seq<nat>)
      returns (head: seq<Op>)
    requires Valid(p) && r < p.n && k < |p.pieces| && Counted(p, r, k, send, recv)
    ensures head == HeadOps(p.n, r, size, send, recv, ring, p.pieces[k]) == PieceOps(p, r, size, ring, k)
  {
    head := PieceOps(p, r, size, ring, k);
    NumbersAre(p, r, k, send, recv);
  }

  lemma CountsStep(p: Exchange, r: nat, k: nat, b: nat)
    requires Valid(p) && r < p.n && b < p.n && k < |p.pieces|
    ensures Count(p, r, b, k + 1)
      == Count(p, r, b, k) + (if b == FromAt(p, r, k) then 1 else 0) + (if b == PeerAt(p, r, k) then 1 else 0)
    ensures Count(p, b, r, k + 1)
      == Count(p, b, r, k) + (if b == PeerAt(p, r, k) then 1 else 0) + (if b == FromAt(p, r, k) then 1 else 0)
  {
    OtherWay(p, b, r, k);
  }

  /** A piece moves the counters as Count says, and bears the numbers PieceOps says. */
  lemma CountsBump(p: Exchange, r: nat, k: nat, send: seq<nat>, recv: seq<nat>) returns (next: (seq<nat>, seq<nat>))
    requires Valid(p) && r < p.n && k < |p.pieces| && Counted(p, r, k, send, recv)
    ensures
      var (peer, from) := (PeerAt(p, r, k), FromAt(p, r, k));
      next == (Bump(Bump(send, from), peer), Bump(Bump(recv, peer), from))
    ensures Counted(p, r, k + 1, next.0, next.1)
  {
    var (peer, from) := (PeerAt(p, r, k), FromAt(p, r, k));
    next := (Bump(Bump(send, from), peer), Bump(Bump(recv, peer), from));
    forall b: nat | b < p.n
      ensures next.0[b] == p.base[r][b] + Count(p, r, b, k + 1)
      ensures next.1[b] == p.base[b][r] + Count(p, b, r, k + 1)
    {
      CountsStep(p, r, k, b);
    }
  }

  lemma NumbersAre(p: Exchange, r: nat, k: nat, send: seq<nat>, recv: seq<nat>)
    requires Valid(p) && r < p.n && k < |p.pieces| && Counted(p, r, k, send, recv)
    ensures
      var (peer, from) := (PeerAt(p, r, k), FromAt(p, r, k));
      && send[from] + 1 == ReadyNo(p, r, from, k) && recv[peer] + 1 == ReadyNo(p, peer, r, k)
      && Bump(send, from)[peer] + 1 == DataNo(p, r, peer, k) && Bump(recv, peer)[from] + 1 == DataNo(p, from, r, k)
  {
    OtherWay(p, FromAt(p, r, k), r, k);
  }

  /** Who receives from r in a piece is whom r sends to. */
  lemma OtherWay(p: Exchange, b: nat, r: nat, k: nat)
    requires Valid(p) && b < p.n && r < p.n && k < |p.pieces|
    ensures Lets(p, b, r, k) == Sends(p, r, b, k) && Sends(p, b, r, k) == Lets(p, r, b, k)
  {
  }
}
