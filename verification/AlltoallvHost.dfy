/** The host code of Send, Recv and Alltoallv, and that what it enqueues is the program of
    slots that the ranks of Rendezvous run. */
module AlltoallvHost {
  import opened Arith
  import opened Rendezvous
  import opened TwoSlots
  import opened Alltoallv

  datatype Op =
    | CopyOwn(src: nat, dst: nat, len: nat)
    | LoadIn(user: nat, len: nat)
    | WaitEq(from: nat, slot: nat, value: nat)
    | PushData(to: nat, len: nat)
    | Notify(to: nat, slot: nat, value: nat)
    | ToUser(user: nat, len: nat)

  /** What a rank sends and receives: element counts and byte offsets, by peer; bytes of an
      element, and elements of a piece. */
  datatype Data = Data(typelen: nat, piece: nat, sendcounts: seq<nat>, sdispls: seq<nat>, recvcounts: seq<nat>,
    rdispls: seq<nat>)

  predicate DataOk(n: nat, d: Data) {
    && d.piece > 0
    && |d.sendcounts| == |d.sdispls| == |d.recvcounts| == |d.rdispls| == n
  }

  /** One piece to or from a peer, one call of tcclEnqueueCheck; `s` and `r` are the numbers
      of its notification and of its wait. */
  datatype Call = Call(sends: bool, peer: nat, user: nat, len: nat, s: nat, r: nat)

  /** What an enqueued call puts on the stream. */
  function CallOps(x: Call): seq<Op> {
    if x.sends then
      [LoadIn(x.user, x.len), WaitEq(x.peer, x.r % SYNC_NUM, x.r), PushData(x.peer, x.len),
        Notify(x.peer, x.s % SYNC_NUM, x.s)]
    else
      [Notify(x.peer, x.s % SYNC_NUM, x.s), WaitEq(x.peer, x.r % SYNC_NUM, x.r), ToUser(x.user, x.len)]
  }

  function AllOps(calls: seq<Call>): seq<Op> {
    if calls == [] then [] else CallOps(calls[0]) + AllOps(calls[1..])
  }

  lemma {:induction false} AllOpsAppend(a: seq<Call>, b: seq<Call>)
    ensures AllOps(a + b) == AllOps(a) + AllOps(b)
    decreases |a|
  {
    if a == [] { assert a + b == b; } else {
      assert (a + b)[1..] == a[1..] + b;
      AllOpsAppend(a[1..], b);
    }
  }

  /** Alltoallv copies a rank's own data first. */
  function OwnOp(d: Data, n: nat, r: nat): Op
    requires DataOk(n, d) && r < n
  {
    CopyOwn(d.sdispls[r], d.rdispls[r], Times(d.sendcounts[r], d.typelen))
  }

  /** A transfer: direction, offset in the user's buffer, elements. */
  datatype Leg = Leg(sends: bool, base: nat, count: nat)

  function PieceCall(leg: Leg, d: Data, peer: nat, s: nat, r: nat, q: nat): Call {
    Call(leg.sends, peer, leg.base + Times(q, MAX_SIZE), Times(PieceLen(leg.count, d.piece, q), d.typelen), s, r)
  }

  /** Pieces q .. len-1 of a transfer. */
  function LegCalls(leg: Leg, d: Data, peer: nat, s: nat, r: nat, q: nat, len: nat): (calls: seq<Call>)
    requires q <= len
    decreases len - q
  {
    if q == len then []
    else [PieceCall(leg, d, peer, s + 1, r + 1, q)] + LegCalls(leg, d, peer, s + 1, r + 1, q + 1, len)
  }

  function LegLen(leg: Leg, d: Data): nat
    requires d.piece > 0
  {
    PiecesFrom(leg.count, d.piece, 0)
  }

  /** The transfer of a rank with data d to or from rank b. */
  function LegOf(d: Data, n: nat, sends: bool, b: nat): Leg
    requires DataOk(n, d) && b < n
  {
    if sends then Leg(true, d.sdispls[b], d.sendcounts[b]) else Leg(false, d.rdispls[b], d.recvcounts[b])
  }

  /** Two transfers with the same peer. */
  function BothCalls(a: Leg, z: Leg, d: Data, peer: nat, s: nat, r: nat): seq<Call>
    requires d.piece > 0
  {
    var m := LegLen(a, d);
    LegCalls(a, d, peer, s, r, 0, m) + LegCalls(z, d, peer, s + m, r + m, 0, LegLen(z, d))
  }

  lemma BothAppend(a: Leg, z: Leg, d: Data, peer: nat, s: nat, r: nat)
    requires d.piece > 0
    ensures
      var m := LegLen(a, d);
      AllOps(BothCalls(a, z, d, peer, s, r))
      == AllOps(LegCalls(a, d, peer, s, r, 0, m)) + AllOps(LegCalls(z, d, peer, s + m, r + m, 0, LegLen(z, d)))
  {
    var m := LegLen(a, d);
    AllOpsAppend(LegCalls(a, d, peer, s, r, 0, m), LegCalls(z, d, peer, s + m, r + m, 0, LegLen(z, d)));
  }

  /** Step i: the lower rank sends first, the higher one receives first. */
  function StepCalls(n: nat, r: nat, d: Data, i: nat, s: nat, w: nat): seq<Call>
    requires r < n && i < n && DataOk(n, d)
  {
    var b := Meet(n, r, i);
    PeerCalls(n, r, d, b, s, w)
  }

  function PeerCalls(n: nat, r: nat, d: Data, b: nat, s: nat, w: nat): seq<Call>
    requires r < n && b < n && DataOk(n, d)
  {
    if b == r then [] else BothCalls(LegOf(d, n, r < b, b), LegOf(d, n, !(r < b), b), d, b, s, w)
  }

  lemma StepIs(n: nat, r: nat, d: Data, i: nat, s: nat, w: nat)
    requires r < n && i < n && DataOk(n, d)
    ensures StepCalls(n, r, d, i, s, w) == PeerCalls(n, r, d, Meet(n, r, i), s, w)
  {
  }

  /** Steps i and later; no rank is met twice, so each pair's counters are those at the start. */
  function StepsCalls(n: nat, r: nat, d: Data, i: nat, send: seq<nat>, recv: seq<nat>): seq<Call>
    requires r < n && i <= n && DataOk(n, d) && |send| == |recv| == n
    decreases n - i
  {
    if i == n then []
    else
      var b := Meet(n, r, i);
      StepCalls(n, r, d, i, send[b], recv[b]) + StepsCalls(n, r, d, i + 1, send, recv)
  }

  lemma StepsHead(n: nat, r: nat, d: Data, i: nat, send: seq<nat>, recv: seq<nat>)
    requires r < n && i < n && DataOk(n, d) && |send| == |recv| == n
    ensures
      var b := Meet(n, r, i);
      StepsCalls(n, r, d, i, send, recv)
        == StepCalls(n, r, d, i, send[b], recv[b]) + StepsCalls(n, r, d, i + 1, send, recv)
  {
  }

  // ---- the host code ---------------------------------------------------------------------

  class SendRecvComm {
    const nranks: nat
    const rank: nat
    var sendcntall: seq<nat>
    var recvcntall: seq<nat>
    var stream: seq<Op>

    constructor (nranks: nat, rank: nat)
      requires rank < nranks
      ensures this.nranks == nranks && this.rank == rank && stream == []
      ensures |sendcntall| == |recvcntall| == nranks
      ensures forall b :: 0 <= b < nranks ==> sendcntall[b] == recvcntall[b] == 0
    {
      this.nranks, this.rank, stream := nranks, rank, [];
      sendcntall, recvcntall := seq(nranks, _ => 0), seq(nranks, _ => 0);
    }

    method SendRecvNotify(peer: nat) returns (op: Op)
      requires peer < |sendcntall|
      modifies this`sendcntall
      ensures sendcntall == old(sendcntall)[peer := old(sendcntall[peer]) + 1]
      ensures op == Notify(peer, sendcntall[peer] % SYNC_NUM, sendcntall[peer])
    {
      var value := sendcntall[peer] + 1;
      sendcntall := sendcntall[peer := value];
      op := Notify(peer, value % SYNC_NUM, value);
    }

    method SendRecvWait(peer: nat) returns (op: Op)
      requires peer < |recvcntall|
      modifies this`recvcntall
      ensures recvcntall == old(recvcntall)[peer := old(recvcntall[peer]) + 1]
      ensures op == WaitEq(peer, recvcntall[peer] % SYNC_NUM, recvcntall[peer])
    {
      var value := recvcntall[peer] + 1;
      recvcntall := recvcntall[peer := value];
      op := WaitEq(peer, value % SYNC_NUM, value);
    }

    /** The Send and Recv branches of tcclEnqueueCheck_func. */
    method EnqueueCheck(sends: bool, peer: nat, user: nat, len: nat)
      requires peer < |sendcntall| == |recvcntall|
      modifies this
      ensures sendcntall == old(sendcntall)[peer := old(sendcntall[peer]) + 1]
      ensures recvcntall == old(recvcntall)[peer := old(recvcntall[peer]) + 1]
      ensures stream == old(stream) + CallOps(Call(sends, peer, user, len, sendcntall[peer], recvcntall[peer]))
    {
      if sends {
        stream := stream + [LoadIn(user, len)];
        var wait := SendRecvWait(peer);
        stream := stream + [wait];
        stream := stream + [PushData(peer, len)];
        var notify := SendRecvNotify(peer);
        stream := stream + [notify];
      } else {
        var notify := SendRecvNotify(peer);
        stream := stream + [notify];
        var wait := SendRecvWait(peer);
        stream := stream + [wait];
        stream := stream + [ToUser(user, len)];
      }
    }

    /** What has been put on the stream lacks the operations of `rest`. */
    ghost predicate Lacks(rest: seq<Call>, goal: seq<Op>)
      reads this
    {
      stream + AllOps(rest) == goal
    }

    /** tcclSend and tcclRecv: one call for every piece. */
    method Transfer(leg: Leg, d: Data, peer: nat)
      requires peer < |sendcntall| == |recvcntall| && d.piece > 0
      modifies this
      ensures |sendcntall| == |recvcntall| == old(|sendcntall|)
      ensures sendcntall == old(sendcntall)[peer := old(sendcntall[peer]) + LegLen(leg, d)]
      ensures recvcntall == old(recvcntall)[peer := old(recvcntall[peer]) + LegLen(leg, d)]
      ensures stream == old(stream) + AllOps(LegCalls(leg, d, peer, old(sendcntall[peer]), old(recvcntall[peer]), 0,
        LegLen(leg, d)))
    {
      ghost var calls := LegCalls(leg, d, peer, sendcntall[peer], recvcntall[peer], 0, LegLen(leg, d));
      PieceLoop(leg, d, peer, calls, stream + AllOps(calls));
    }

    method PieceLoop(leg: Leg, d: Data, peer: nat, ghost calls: seq<Call>, ghost goal: seq<Op>)
      requires peer < |sendcntall| == |recvcntall| && d.piece > 0
      requires calls == LegCalls(leg, d, peer, sendcntall[peer], recvcntall[peer], 0, LegLen(leg, d))
      requires Lacks(calls, goal)
      modifies this
      ensures |sendcntall| == |recvcntall| == old(|sendcntall|)
      ensures sendcntall == old(sendcntall)[peer := old(sendcntall[peer]) + LegLen(leg, d)]
      ensures recvcntall == old(recvcntall)[peer := old(recvcntall[peer]) + LegLen(leg, d)]
      ensures stream == goal
    {
      var i := 0;
      ghost var (s, r, rest) := (sendcntall[peer], recvcntall[peer], calls);
      PiecesFromIs(leg.count, d.piece, 0, 0);
      while Times(i, d.piece) < leg.count
        invariant OthersSame(old(sendcntall), sendcntall, peer) && OthersSame(old(recvcntall), recvcntall, peer)
        invariant AtPiece(leg, d, peer, i, s, r, rest, goal)
        decreases leg.count - Times(i, d.piece)
      {
        rest := NextPiece(leg, d, peer, i, s, r, rest, goal);
        i := i + 1;
      }
    }

    /** Pieces before i are on the stream. */
    ghost predicate AtPiece(leg: Leg, d: Data, peer: nat, i: nat, s: nat, r: nat, rest: seq<Call>, goal: seq<Op>)
      reads this
    {
      && peer < |sendcntall| == |recvcntall| && d.piece > 0
      && i <= LegLen(leg, d) && (i < LegLen(leg, d) <==> Times(i, d.piece) < leg.count)
      && sendcntall[peer] == s + i && recvcntall[peer] == r + i
      && rest == LegCalls(leg, d, peer, s + i, r + i, i, LegLen(leg, d)) && Lacks(rest, goal)
    }

    method NextPiece(leg: Leg, d: Data, peer: nat, i: nat, ghost s: nat, ghost r: nat, ghost rest: seq<Call>,
        ghost goal: seq<Op>) returns (ghost tail: seq<Call>)
      requires AtPiece(leg, d, peer, i, s, r, rest, goal) && Times(i, d.piece) < leg.count
      modifies this
      ensures OthersSame(old(sendcntall), sendcntall, peer) && OthersSame(old(recvcntall), recvcntall, peer)
      ensures AtPiece(leg, d, peer, i + 1, s, r, tail, goal)
    {
      PiecesFromIs(leg.count, d.piece, 0, i + 1);
      tail := OnePiece(leg, d, peer, i, LegLen(leg, d), rest, goal);
    }

    method OnePiece(leg: Leg, d: Data, peer: nat, i: nat, ghost len: nat, ghost rest: seq<Call>, ghost goal: seq<Op>)
        returns (ghost tail: seq<Call>)
      requires peer < |sendcntall| == |recvcntall| && d.piece > 0 && i < len && Times(i, d.piece) < leg.count
      requires rest == LegCalls(leg, d, peer, sendcntall[peer], recvcntall[peer], i, len) && Lacks(rest, goal)
      modifies this
      ensures sendcntall == old(sendcntall)[peer := old(sendcntall[peer]) + 1]
      ensures recvcntall == old(recvcntall)[peer := old(recvcntall[peer]) + 1]
      ensures tail == LegCalls(leg, d, peer, sendcntall[peer], recvcntall[peer], i + 1, len) && Lacks(tail, goal)
    {
      var user, bytes := PieceBytes(leg, d, i);
      ghost var call := Call(leg.sends, peer, user, bytes, sendcntall[peer] + 1, recvcntall[peer] + 1);
      tail := LegCalls(leg, d, peer, sendcntall[peer] + 1, recvcntall[peer] + 1, i + 1, len);
      assert rest == [call] + tail;
      OpsOf(call, tail);
      LacksHead(call, tail, goal);
      EnqueueCheck(leg.sends, peer, user, bytes);
    }

    lemma LacksHead(call: Call, tail: seq<Call>, goal: seq<Op>)
      requires Lacks([call] + tail, goal) && AllOps([call] + tail) == CallOps(call) + AllOps(tail)
      ensures (stream + CallOps(call)) + AllOps(tail) == goal
    {
    }

    /** Where a piece begins in the user's buffer, and its length. */
    method PieceBytes(leg: Leg, d: Data, i: nat) returns (user: nat, bytes: nat)
      requires Times(i, d.piece) < leg.count
      ensures user == leg.base + Times(i, MAX_SIZE) && bytes == Times(PieceLen(leg.count, d.piece, i), d.typelen)
    {
      var elements := if Times(i + 1, d.piece) > leg.count then leg.count - Times(i, d.piece) else d.piece;
      TimesIs(i, MAX_SIZE);
      TimesIs(elements, d.typelen);
      user, bytes := leg.base + i * MAX_SIZE, elements * d.typelen;
    }

    lemma OpsOf(call: Call, tail: seq<Call>)
      ensures AllOps([call] + tail) == CallOps(call) + AllOps(tail)
    {
      assert ([call] + tail)[1..] == tail;
    }

    method Partner(startNo: nat, i: nat) returns (peer: nat)
      requires rank < nranks && startNo == nranks - 1 - rank && i < nranks
      ensures peer == Meet(nranks, rank, i)
    {
      MeetIs(nranks, rank, i);
      peer := (startNo + i) % nranks;
    }

    /** The counters for peers that are still to be met are those at the start. */
    ghost predicate Fresh(i: nat, send: seq<nat>, recv: seq<nat>)
      requires rank < nranks == |send| == |recv|
      reads this
    {
      && |sendcntall| == |recvcntall| == nranks
      && forall b: nat :: b < nranks && StepOf(nranks, rank, b) >= i ==>
                            sendcntall[b] == send[b] && recvcntall[b] == recv[b]
    }

    /** What has been put on the stream before step i lacks the calls of the steps from i on. */
    ghost predicate Left(i: nat, d: Data, send: seq<nat>, recv: seq<nat>, goal: seq<Op>)
      reads this
    {
      && rank < nranks == |send| == |recv| && i <= nranks && DataOk(nranks, d) && Fresh(i, send, recv)
      && Lacks(StepsCalls(nranks, rank, d, i, send, recv), goal)
    }

    lemma NoneLeft(d: Data, send: seq<nat>, recv: seq<nat>, goal: seq<Op>)
      requires Left(nranks, d, send, recv, goal)
      ensures |sendcntall| == |recvcntall| == nranks && stream == goal
    {
    }

    method Alltoallv(d: Data)
      requires rank < nranks == |sendcntall| == |recvcntall| && DataOk(nranks, d)
      modifies this
      ensures |sendcntall| == |recvcntall| == nranks
      ensures stream == old(stream) + [OwnOp(d, nranks, rank)]
        + AllOps(StepsCalls(nranks, rank, d, 0, old(sendcntall), old(recvcntall)))
    {
      TimesIs(d.sendcounts[rank], d.typelen);
      stream := stream + [CopyOwn(d.sdispls[rank], d.rdispls[rank], d.sendcounts[rank] * d.typelen)];
      ghost var calls := StepsCalls(nranks, rank, d, 0, sendcntall, recvcntall);
      StepLoop(d, sendcntall, recvcntall, stream + AllOps(calls));
    }

    method StepLoop(d: Data, ghost send: seq<nat>, ghost recv: seq<nat>, ghost goal: seq<Op>)
      requires Left(0, d, send, recv, goal)
      modifies this
      ensures |sendcntall| == |recvcntall| == nranks && stream == goal
    {
      var startNo := nranks - 1 - rank;
      var i := 0;
      while i < nranks
        invariant i <= nranks && Left(i, d, send, recv, goal)
      {
        NextStep(startNo, i, d, send, recv, goal);
        i := i + 1;
      }
      NoneLeft(d, send, recv, goal);
    }

    method NextStep(startNo: nat, i: nat, d: Data, ghost send: seq<nat>, ghost recv: seq<nat>, ghost goal: seq<Op>)
      requires i < nranks && startNo == nranks - 1 - rank && Left(i, d, send, recv, goal)
      modifies this
      ensures Left(i + 1, d, send, recv, goal)
    {
      var peer := Partner(startNo, i);
      MeetOnce(nranks, rank, peer, i);
      ghost var (s, r) := (sendcntall, recvcntall);
      StepsHead(nranks, rank, d, i, send, recv);
      StepIs(nranks, rank, d, i, send[peer], recv[peer]);
      OneStep(peer, d, PeerCalls(nranks, rank, d, peer, send[peer], recv[peer]),
              StepsCalls(nranks, rank, d, i + 1, send, recv), goal);
      StillFresh(nranks, rank, i, send, s, sendcntall);
      StillFresh(nranks, rank, i, recv, r, recvcntall);
    }

    method OneStep(peer: nat, d: Data, ghost calls: seq<Call>, ghost tail: seq<Call>, ghost goal: seq<Op>)
      requires rank < nranks == |sendcntall| == |recvcntall| && DataOk(nranks, d) && peer < nranks
      requires calls == PeerCalls(nranks, rank, d, peer, sendcntall[peer], recvcntall[peer])
      requires Lacks(calls + tail, goal)
      modifies this
      ensures |sendcntall| == |recvcntall| == nranks
      ensures OthersSame(old(sendcntall), sendcntall, peer) && OthersSame(old(recvcntall), recvcntall, peer)
      ensures Lacks(tail, goal)
    {
      Exchange(peer, d, calls);
      assert old(Lacks(calls + tail, goal));
      AllOpsAppend(calls, tail);
    }

    /** What a step does with its peer. */
    method Exchange(peer: nat, d: Data, ghost calls: seq<Call>)
      requires rank < nranks == |sendcntall| == |recvcntall| && DataOk(nranks, d) && peer < nranks
      requires calls == PeerCalls(nranks, rank, d, peer, sendcntall[peer], recvcntall[peer])
      modifies this
      ensures |sendcntall| == |recvcntall| == nranks
      ensures OthersSame(old(sendcntall), sendcntall, peer) && OthersSame(old(recvcntall), recvcntall, peer)
      ensures stream == old(stream) + AllOps(calls)
    {
      if rank < peer {
        Transfers(Leg(true, d.sdispls[peer], d.sendcounts[peer]), Leg(false, d.rdispls[peer], d.recvcounts[peer]), d,
          peer, calls);
      } else if rank > peer {
        Transfers(Leg(false, d.rdispls[peer], d.recvcounts[peer]), Leg(true, d.sdispls[peer], d.sendcounts[peer]), d,
          peer, calls);
      }
    }

    method Transfers(first: Leg, second: Leg, d: Data, peer: nat, ghost calls: seq<Call>)
      requires peer < |sendcntall| == |recvcntall| && d.piece > 0
      requires calls == BothCalls(first, second, d, peer, sendcntall[peer], recvcntall[peer])
      modifies this
      ensures |sendcntall| == |recvcntall| == old(|sendcntall|)
      ensures OthersSame(old(sendcntall), sendcntall, peer) && OthersSame(old(recvcntall), recvcntall, peer)
      ensures stream == old(stream) + AllOps(calls)
    {
      BothAppend(first, second, d, peer, sendcntall[peer], recvcntall[peer]);
      Transfer(first, d, peer);
      Transfer(second, d, peer);
    }
  }

  predicate OthersSame(a: seq<nat>, b: seq<nat>, c: nat) {
    |a| == |b| && forall k :: 0 <= k < |a| && k != c ==> b[k] == a[k]
  }

  lemma StillFresh(n: nat, r: nat, i: nat, cnt0: seq<nat>, before: seq<nat>, after: seq<nat>)
    requires r < n == |cnt0| == |before| && i < n && OthersSame(before, after, Meet(n, r, i))
    requires forall b: nat :: b < n && StepOf(n, r, b) >= i ==> before[b] == cnt0[b]
    ensures forall b: nat :: b < n && StepOf(n, r, b) >= i + 1 ==> after[b] == cnt0[b]
  {
    forall b: nat | b < n && StepOf(n, r, b) >= i + 1 ensures b != Meet(n, r, i) { MeetOnce(n, r, b, i); }
  }

  // ---- the calls are the program of slots -------------------------------------------------

  function Add(cnt: seq<nat>, b: nat, m: nat): (r: seq<nat>)
    ensures |r| == |cnt|
    ensures forall c :: 0 <= c < |cnt| ==> r[c] == cnt[c] + if c == b then m else 0
  {
    if b < |cnt| then cnt[b := cnt[b] + m] else cnt
  }

  lemma AddTwice(cnt: seq<nat>, b: nat, m: nat, k: nat)
    requires b < |cnt|
    ensures Add(Add(cnt, b, m), b, k) == Add(cnt, b, m + k)
  {
  }

  /** The other rank of a role. */
  function MateOf(role: Role): (b: nat)
    requires role != Idle
  {
    match role case Send(b, _) => b case Recv(b, _) => b
  }

  function RoleCalls(d: Data, n: nat, role: Role, send: seq<nat>, recv: seq<nat>): seq<Call>
    requires DataOk(n, d) && n == |send| == |recv|
  {
    if role == Idle || MateOf(role) >= n then []
    else
      var b := MateOf(role);
      [PieceCall(LegOf(d, n, role.Send?, b), d, b, send[b] + 1, recv[b] + 1, role.piece)]
  }

  function Counted(role: Role, cnt: seq<nat>): (r: seq<nat>)
    ensures |r| == |cnt|
  {
    if role == Idle then cnt else Add(cnt, MateOf(role), 1)
  }

  /** The calls of a rank with these roles, and its counters afterwards. */
  function Walk(d: Data, n: nat, roles: seq<Role>, send: seq<nat>, recv: seq<nat>): seq<Call>
    requires DataOk(n, d) && n == |send| == |recv|
    decreases |roles|
  {
    if roles == [] then []
    else
      RoleCalls(d, n, roles[0], send, recv)
      + Walk(d, n, roles[1..], Counted(roles[0], send), Counted(roles[0], recv))
  }

  function After(roles: seq<Role>, cnt: seq<nat>): (r: seq<nat>)
    ensures |r| == |cnt|
    decreases |roles|
  {
    if roles == [] then cnt else After(roles[1..], Counted(roles[0], cnt))
  }

  lemma {:induction false} AfterAppend(a: seq<Role>, b: seq<Role>, cnt: seq<nat>)
    ensures After(a + b, cnt) == After(b, After(a, cnt))
    decreases |a|
  {
    if a == [] { assert a + b == b; } else {
      assert (a + b)[1..] == a[1..] + b;
      AfterAppend(a[1..], b, Counted(a[0], cnt));
    }
  }

  lemma {:induction false} WalkAppend(d: Data, n: nat, a: seq<Role>, b: seq<Role>, send: seq<nat>, recv: seq<nat>)
    requires DataOk(n, d) && n == |send| == |recv|
    ensures Walk(d, n, a + b, send, recv) == Walk(d, n, a, send, recv) + Walk(d, n, b, After(a, send), After(a, recv))
    decreases |a|
  {
    if a == [] { assert a + b == b; } else {
      assert (a + b)[1..] == a[1..] + b;
      WalkAppend(d, n, a[1..], b, Counted(a[0], send), Counted(a[0], recv));
    }
  }

  function PieceRole(sends: bool, b: nat, q: nat): Role {
    if sends then Send(b, q) else Recv(b, q)
  }

  /** Pieces q and later of a transfer to or from rank b. */
  function LegRoles(sends: bool, b: nat, q: nat, len: nat): (roles: seq<Role>)
    requires q <= len
    ensures |roles| == len - q
    ensures forall k :: 0 <= k < len - q ==> roles[k] == PieceRole(sends, b, q + k)
  {
    seq(len - q, k requires 0 <= k < len - q => PieceRole(sends, b, q + k))
  }

  function Idles(m: nat): (roles: seq<Role>)
    ensures |roles| == m && forall k :: 0 <= k < m ==> roles[k] == Idle
  {
    seq(m, _ => Idle)
  }

  /** Slots in which a rank has nothing to do make no calls. */
  lemma {:induction false} WalkIdles(d: Data, n: nat, m: nat, send: seq<nat>, recv: seq<nat>)
    requires DataOk(n, d) && n == |send| == |recv|
    ensures Walk(d, n, Idles(m), send, recv) == [] && After(Idles(m), send) == send && After(Idles(m), recv) == recv
    decreases m
  {
    if m > 0 {
      assert Idles(m)[1..] == Idles(m - 1);
      WalkIdles(d, n, m - 1, send, recv);
    }
  }

  lemma {:induction false} AfterLeg(sends: bool, b: nat, q: nat, len: nat, cnt: seq<nat>)
    requires b < |cnt| && q <= len
    ensures After(LegRoles(sends, b, q, len), cnt) == Add(cnt, b, len - q)
    decreases len - q
  {
    if q < len {
      assert LegRoles(sends, b, q, len)[1..] == LegRoles(sends, b, q + 1, len);
      AfterLeg(sends, b, q + 1, len, Add(cnt, b, 1));
      AddTwice(cnt, b, 1, len - q - 1);
    }
  }

  /** A transfer makes the calls that its pieces' roles say. */
  lemma {:induction false} WalkLeg(d: Data, n: nat, sends: bool, b: nat, q: nat, len: nat, send: seq<nat>,
      recv: seq<nat>)
    requires DataOk(n, d) && n == |send| == |recv| && b < n && q <= len
    ensures Walk(d, n, LegRoles(sends, b, q, len), send, recv) ==
            LegCalls(LegOf(d, n, sends, b), d, b, send[b], recv[b], q, len)
    decreases len - q
  {
    if q < len {
      assert LegRoles(sends, b, q, len)[1..] == LegRoles(sends, b, q + 1, len);
      WalkLeg(d, n, sends, b, q + 1, len, Add(send, b, 1), Add(recv, b, 1));
    }
  }

  /** Roles a and then b, with what each makes. */
  lemma WalkTwo(d: Data, n: nat, a: seq<Role>, b: seq<Role>, send: seq<nat>, recv: seq<nat>, s1: seq<nat>, r1: seq<nat>,
                x: seq<Call>, y: seq<Call>)
    requires DataOk(n, d) && n == |send| == |recv| == |s1| == |r1|
    requires After(a, send) == s1 && After(a, recv) == r1
    requires Walk(d, n, a, send, recv) == x && Walk(d, n, b, s1, r1) == y
    ensures Walk(d, n, a + b, send, recv) == x + y
    ensures After(a + b, send) == After(b, s1) && After(a + b, recv) == After(b, r1)
  {
    WalkAppend(d, n, a, b, send, recv);
    AfterAppend(a, b, send);
    AfterAppend(a, b, recv);
  }

  /** Both legs of a step, and then nothing. */
  lemma WalkBoth(d: Data, n: nat, sends: bool, b: nat, x: nat, y: nat, m: nat, roles: seq<Role>, send: seq<nat>,
      recv: seq<nat>)
    requires DataOk(n, d) && n == |send| == |recv| && b < n && roles == BothRoles(sends, b, x, y, m)
    requires x == LegLen(LegOf(d, n, sends, b), d) && y == LegLen(LegOf(d, n, !sends, b), d)
    ensures Walk(d, n, roles, send, recv)
      == BothCalls(LegOf(d, n, sends, b), LegOf(d, n, !sends, b), d, b, send[b], recv[b])
    ensures After(roles, send) == Add(send, b, x + y) && After(roles, recv) == Add(recv, b, x + y)
  {
    WalkLegs(d, n, sends, b, x, y, m, send, recv);
  }

  lemma WalkLegs(d: Data, n: nat, sends: bool, b: nat, x: nat, y: nat, m: nat, send: seq<nat>, recv: seq<nat>)
    requires DataOk(n, d) && n == |send| == |recv| && b < n
    requires x == LegLen(LegOf(d, n, sends, b), d) && y == LegLen(LegOf(d, n, !sends, b), d)
    ensures
      var roles := BothRoles(sends, b, x, y, m);
      && Walk(d, n, roles, send, recv)
        == BothCalls(LegOf(d, n, sends, b), LegOf(d, n, !sends, b), d, b, send[b], recv[b])
      && After(roles, send) == Add(send, b, x + y) && After(roles, recv) == Add(recv, b, x + y)
  {
    var (s1, r1) := (Add(send, b, x), Add(recv, b, x));
    WalkLeg(d, n, sends, b, 0, x, send, recv);
    AfterLeg(sends, b, 0, x, send);
    AfterLeg(sends, b, 0, x, recv);
    WalkRest(d, n, !sends, b, m, y, s1, r1);
    WalkTwo(d, n, LegRoles(sends, b, 0, x), LegRoles(!sends, b, 0, y) + Idles(m), send, recv, s1, r1,
            LegCalls(LegOf(d, n, sends, b), d, b, send[b], recv[b], 0, x),
            LegCalls(LegOf(d, n, !sends, b), d, b, send[b] + x, recv[b] + x, 0, y));
    AddsTwice(b, x, y, send, recv);
  }

  lemma AddsTwice(b: nat, x: nat, y: nat, send: seq<nat>, recv: seq<nat>)
    requires b < |send| == |recv|
    ensures Add(Add(send, b, x), b, y) == Add(send, b, x + y) && Add(Add(recv, b, x), b, y) == Add(recv, b, x + y)
    ensures Add(send, b, x)[b] == send[b] + x && Add(recv, b, x)[b] == recv[b] + x
  {
    AddTwice(send, b, x, y);
    AddTwice(recv, b, x, y);
  }

  lemma WalkRest(d: Data, n: nat, sends: bool, b: nat, m: nat, y: nat, send: seq<nat>, recv: seq<nat>)
    requires DataOk(n, d) && n == |send| == |recv| && b < n
    ensures
      var roles := LegRoles(sends, b, 0, y) + Idles(m);
      && Walk(d, n, roles, send, recv) == LegCalls(LegOf(d, n, sends, b), d, b, send[b], recv[b], 0, y)
      && After(roles, send) == Add(send, b, y) && After(roles, recv) == Add(recv, b, y)
  {
    var leg := LegRoles(sends, b, 0, y);
    WalkAppend(d, n, leg, Idles(m), send, recv);
    WalkLeg(d, n, sends, b, 0, y, send, recv);
    AfterLeg(sends, b, 0, y, send);
    AfterLeg(sends, b, 0, y, recv);
    WalkIdles(d, n, m, Add(send, b, y), Add(recv, b, y));
    AfterAppend(leg, Idles(m), send);
    AfterAppend(leg, Idles(m), recv);
  }

  // ---- a whole call, as one rank sees it ---------------------------------------------------

  /** Pieces exchanged with the peer of step i, both ways. */
  function StepLen(d: Data, n: nat, r: nat, i: nat): nat
    requires DataOk(n, d) && r < n && i < n
  {
    var b := Meet(n, r, i);
    if b == r then 0 else LegLen(LegOf(d, n, r < b, b), d) + LegLen(LegOf(d, n, !(r < b), b), d)
  }

  /** First one leg, then the other, then nothing. */
  function StepRoles(d: Data, n: nat, r: nat, width: nat, i: nat): seq<Role>
    requires DataOk(n, d) && r < n && i < n
  {
    var b := Meet(n, r, i);
    var idle := if StepLen(d, n, r, i) <= width then width - StepLen(d, n, r, i) else 0;
    if b == r then Idles(idle) else BothRoles(r < b, b, LegLen(LegOf(d, n, r < b, b), d),
        LegLen(LegOf(d, n, !(r < b), b), d), idle)
  }

  function BothRoles(sends: bool, b: nat, x: nat, y: nat, idle: nat): seq<Role> {
    LegRoles(sends, b, 0, x) + (LegRoles(!sends, b, 0, y) + Idles(idle))
  }

  /** A step makes the calls that the rank's roles in its slots say. */
  lemma StepWalk(d: Data, n: nat, r: nat, width: nat, i: nat, roles: seq<Role>, send: seq<nat>, recv: seq<nat>)
    requires DataOk(n, d) && i < n && r < n && |send| == |recv| == n && roles == StepRoles(d, n, r, width, i)
    ensures Walk(d, n, roles, send, recv) == StepCalls(n, r, d, i, send[Meet(n, r, i)], recv[Meet(n, r, i)])
    ensures After(roles, send) == Add(send, Meet(n, r, i), StepLen(d, n, r, i))
    ensures After(roles, recv) == Add(recv, Meet(n, r, i), StepLen(d, n, r, i))
  {
    var b := Meet(n, r, i);
    var m := if StepLen(d, n, r, i) <= width then width - StepLen(d, n, r, i) else 0;
    if b == r {
      WalkIdles(d, n, m, send, recv);
      assert Add(send, b, 0) == send && Add(recv, b, 0) == recv;
    } else {
      MeetingIs(d, n, r, width, i, m, send[b], recv[b]);
      WalkBoth(d, n, r < b, b, LegLen(LegOf(d, n, r < b, b), d), LegLen(LegOf(d, n, !(r < b), b), d), m, roles, send,
        recv);
    }
  }

  lemma MeetingIs(d: Data, n: nat, r: nat, width: nat, i: nat, m: nat, s: nat, w: nat)
    requires DataOk(n, d) && i < n && r < n && Meet(n, r, i) != r
    requires m == if StepLen(d, n, r, i) <= width then width - StepLen(d, n, r, i) else 0
    ensures
      var b := Meet(n, r, i);
      var (a, z) := (LegOf(d, n, r < b, b), LegOf(d, n, !(r < b), b));
      && StepRoles(d, n, r, width, i) == BothRoles(r < b, b, LegLen(a, d), LegLen(z, d), m)
      && StepCalls(n, r, d, i, s, w) == BothCalls(a, z, d, b, s, w)
        && StepLen(d, n, r, i) == LegLen(a, d) + LegLen(z, d)
  {
  }

  /** The roles of rank r in steps i and later. */
  function CallRoles(d: Data, n: nat, r: nat, width: nat, i: nat): seq<Role>
    requires DataOk(n, d) && i <= n && r < n
    decreases n - i
  {
    if i == n then [] else StepRoles(d, n, r, width, i) + CallRoles(d, n, r, width, i + 1)
  }

  /** The counters for peers that are met in step i or later agree. */
  ghost predicate SameAhead(n: nat, r: nat, i: nat, cnt0: seq<nat>, cnt: seq<nat>)
    requires r < n == |cnt0| == |cnt|
  {
    forall b: nat :: b < n && StepOf(n, r, b) >= i ==> cnt[b] == cnt0[b]
  }

  /** What the host enqueues for rank r is what its roles in the slots of the call say. */
  lemma {:induction false} HostIsProgram(d: Data, n: nat, r: nat, width: nat, i: nat,
                                         send0: seq<nat>, recv0: seq<nat>, send: seq<nat>, recv: seq<nat>)
    requires DataOk(n, d) && i <= n && r < n && |send| == |recv| == |send0| == |recv0| == n
    requires SameAhead(n, r, i, send0, send) && SameAhead(n, r, i, recv0, recv)
    ensures Walk(d, n, CallRoles(d, n, r, width, i), send, recv) == StepsCalls(n, r, d, i, send0, recv0)
    decreases n - i
  {
    if i < n {
      var (b, m) := (Meet(n, r, i), StepLen(d, n, r, i));
      OthersKept(n, r, i, m, send0, send);
      OthersKept(n, r, i, m, recv0, recv);
      HostIsProgram(d, n, r, width, i + 1, send0, recv0, Add(send, b, m), Add(recv, b, m));
      StepWalk(d, n, r, width, i, StepRoles(d, n, r, width, i), send, recv);
      WalkTwo(d, n, StepRoles(d, n, r, width, i), CallRoles(d, n, r, width, i + 1), send, recv,
        Add(send, b, m), Add(recv, b, m),
              StepCalls(n, r, d, i, send[b], recv[b]), StepsCalls(n, r, d, i + 1, send0, recv0));
    }
  }

  lemma OthersKept(n: nat, r: nat, i: nat, m: nat, cnt0: seq<nat>, cnt: seq<nat>)
    requires r < n == |cnt0| == |cnt| && i < n && SameAhead(n, r, i, cnt0, cnt)
    ensures cnt[Meet(n, r, i)] == cnt0[Meet(n, r, i)] && SameAhead(n, r, i + 1, cnt0, Add(cnt, Meet(n, r, i), m))
  {
    MeetOnce(n, r, Meet(n, r, i), i);
    forall b: nat | b < n && StepOf(n, r, b) >= i + 1 ensures b != Meet(n, r, i) { MeetOnce(n, r, b, i); }
  }

  // ---- the slots of Alltoallv, as one rank sees them ------------------------------------------

  /** A rank's data agrees with the plan: as many pieces to send and to receive. */
  ghost predicate Agrees(d: Data, n: nat, r: nat, pieces: seq<seq<nat>>)
    requires r < n == |pieces| && forall a :: 0 <= a < n ==> |pieces[a]| == n
  {
    && DataOk(n, d)
    && forall b :: 0 <= b < n && b != r ==>
         pieces[r][b] == LegLen(LegOf(d, n, true, b), d) && pieces[b][r] == LegLen(LegOf(d, n, false, b), d)
  }

  function RolesOf(slots: seq<seq<Role>>, n: nat, r: nat): (roles: seq<Role>)
    requires r < n && forall k :: 0 <= k < |slots| ==> |slots[k]| == n
    ensures |roles| == |slots| && forall k :: 0 <= k < |slots| ==> roles[k] == slots[k][r]
  {
    seq(|slots|, k requires 0 <= k < |slots| => slots[k][r])
  }

  lemma StepRolesAre(d: Data, n: nat, r: nat, pieces: seq<seq<nat>>, width: nat, i: nat)
    requires PlanOk(n, pieces, width) && i < n && r < n && Agrees(d, n, r, pieces)
    ensures RolesOf(StepSlots(n, pieces, width, i), n, r) == StepRoles(d, n, r, width, i)
  {
    var b := Meet(n, r, i);
    if b != r {
      assert pieces[r][b] + pieces[b][r] <= width;
      var (x, y) := if r < b then (pieces[r][b], pieces[b][r]) else (pieces[b][r], pieces[r][b]);
      TwoLegRoles(n, pieces, width, i, r, x, y);
    }
  }

  lemma TwoLegRoles(n: nat, pieces: seq<seq<nat>>, width: nat, i: nat, r: nat, x: nat, y: nat)
    requires PlanOk(n, pieces, width) && i < n && r < n && Meet(n, r, i) != r && x + y <= width
    requires
      var b := Meet(n, r, i);
      if r < b then x == pieces[r][b] && y == pieces[b][r] else x == pieces[b][r] && y == pieces[r][b]
    ensures
      var b := Meet(n, r, i);
      RolesOf(StepSlots(n, pieces, width, i), n, r) ==
      BothRoles(r < b, b, x, y, width - (x + y))
  {
  }

  lemma RolesAppend(a: seq<seq<Role>>, b: seq<seq<Role>>, n: nat, r: nat)
    requires r < n && (forall k :: 0 <= k < |a| ==> |a[k]| == n) && (forall k :: 0 <= k < |b| ==> |b[k]| == n)
    ensures forall k :: 0 <= k < |a + b| ==> |(a + b)[k]| == n
    ensures RolesOf(a + b, n, r) == RolesOf(a, n, r) + RolesOf(b, n, r)
  {
  }

  /** The roles of rank r in the slots of a call are those its own data give it. */
  lemma {:induction false} CallRolesAre(d: Data, n: nat, r: nat, pieces: seq<seq<nat>>, width: nat, i: nat)
    requires PlanOk(n, pieces, width) && i <= n && r < n && Agrees(d, n, r, pieces)
    ensures forall k :: 0 <= k < |CallSlots(n, pieces, width, i)| ==> |CallSlots(n, pieces, width, i)[k]| == n
    ensures RolesOf(CallSlots(n, pieces, width, i), n, r) == CallRoles(d, n, r, width, i)
    decreases n - i
  {
    if i < n {
      CallRolesAre(d, n, r, pieces, width, i + 1);
      StepRolesAre(d, n, r, pieces, width, i);
      RolesAppend(StepSlots(n, pieces, width, i), CallSlots(n, pieces, width, i + 1), n, r);
    }
  }
}
