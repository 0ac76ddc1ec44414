/** All ranks of the pairwise Alltoall in any interleaving: a transpose through receive
    buffers that have at most one permitted writer at any time.

    `slot[b][a]` are the two flags at rank b that rank a notifies.  The waits that end a
    piece (tcclDevSyncCard and the flag around the ring) are taken as meetings: nobody
    leaves before its mates have come. */
module AlltoallMachine {
  import opened Arith
  import opened Terms
  import opened TwoSlots
  import opened Alltoall

  datatype State = State(pc: seq<Pc>, slot: seq<seq<seq<nat>>>,
                         inb: seq<Term>, out: seq<Term>, user: seq<map<nat, Term>>)

  predicate Shape(p: Exchange, s: State) {
    && |s.pc| == |s.slot| == |s.inb| == |s.out| == |s.user| == p.n
    && (forall b :: 0 <= b < p.n ==> |s.slot[b]| == p.n)
    && (forall b, a :: 0 <= b < p.n && 0 <= a < p.n ==> |s.slot[b][a]| == SYNC_NUM)
  }

  function Rank(st: Stage): nat {
    match st
    case NotifyFrom => 0 case Load => 1 case AwaitPeer => 2 case Push => 3 case NotifyPeer => 4
    case AwaitFrom => 5 case CopyOut => 6 case Meet => 7 case Ring => 8
  }

  function Advance(pc: Pc): Pc {
    match pc.st
    case NotifyFrom => Pc(pc.k, Load)
    case Load => Pc(pc.k, AwaitPeer)
    case AwaitPeer => Pc(pc.k, Push)
    case Push => Pc(pc.k, NotifyPeer)
    case NotifyPeer => Pc(pc.k, AwaitFrom)
    case AwaitFrom => Pc(pc.k, CopyOut)
    case CopyOut => Pc(pc.k, Meet)
    case Meet => Pc(pc.k, Ring)
    case Ring => Pc(pc.k + 1, NotifyFrom)
  }

  predicate PcOk(p: Exchange, pc: Pc) {
    pc.k < |p.pieces| || pc == Pc(|p.pieces|, NotifyFrom)
  }

  /** The rank has executed stage `st` of piece k. */
  predicate Past(pc: Pc, k: nat, st: Stage) {
    pc.k > k || (pc.k == k && Rank(pc.st) > Rank(st))
  }

  predicate Reached(pc: Pc, k: nat, st: Stage) {
    pc.k > k || (pc.k == k && Rank(pc.st) >= Rank(st))
  }

  ghost predicate At(p: Exchange, s: State, r: nat) {
    Valid(p) && Shape(p, s) && r < p.n && s.pc[r].k < |p.pieces|
  }

  /** What a rank waits for: the other rank's number, in the flag of its parity. */
  function Awaited(p: Exchange, r: nat, pc: Pc): (nat, nat)
    requires Valid(p) && r < p.n && pc.k < |p.pieces|
  {
    if pc.st == AwaitPeer then (PeerAt(p, r, pc.k), ReadyNo(p, PeerAt(p, r, pc.k), r, pc.k))
    else (FromAt(p, r, pc.k), DataNo(p, FromAt(p, r, pc.k), r, pc.k))
  }

  predicate Enabled(p: Exchange, s: State, r: nat)
    requires At(p, s, r)
  {
    var Pc(k, st) := s.pc[r];
    match st
    case AwaitPeer => var (a, v) := Awaited(p, r, s.pc[r]); s.slot[r][a][v % SYNC_NUM] == v
    case AwaitFrom => var (a, v) := Awaited(p, r, s.pc[r]); s.slot[r][a][v % SYNC_NUM] == v
    case Meet => forall m :: 0 <= m < p.n && m in p.mates[r] ==> Reached(s.pc[m], k, Meet)
    case Ring => Reached(s.pc[p.prev[r]], k, Ring)
    case _ => true
  }

  function Record(user: map<nat, Term>, k: nat, v: Term): map<nat, Term> {
    user[k := v]
  }

  function SlotAfter(p: Exchange, s: State, r: nat): seq<seq<seq<nat>>>
    requires At(p, s, r)
  {
    var Pc(k, st) := s.pc[r];
    match st
    case NotifyFrom => var b := FromAt(p, r, k); s.slot[b := Put(s.slot[b], r, ReadyNo(p, r, b, k))]
    case NotifyPeer => var b := PeerAt(p, r, k); s.slot[b := Put(s.slot[b], r, DataNo(p, r, b, k))]
    case _ => s.slot
  }

  function Apply(p: Exchange, s: State, r: nat): State
    requires At(p, s, r)
  {
    var Pc(k, st) := s.pc[r];
    var (peer, from) := (PeerAt(p, r, k), FromAt(p, r, k));
    State(s.pc[r := Advance(s.pc[r])],
          SlotAfter(p, s, r),
          if st == Load then s.inb[r := Leaf(r, k, peer)] else s.inb,
          if st == Push then s.out[peer := s.inb[r]] else s.out,
          if st == CopyOut then s.user[r := Record(s.user[r], k, s.out[r])] else s.user)
  }

  /** Any flags that the counters have reached. */
  ghost predicate Init(p: Exchange, s: State)
    requires Valid(p)
  {
    && Shape(p, s)
    && (forall r :: 0 <= r < p.n ==> s.pc[r] == Pc(0, NotifyFrom))
    && (forall a, b, q :: 0 <= a < p.n && 0 <= b < p.n && 0 <= q < SYNC_NUM ==> s.slot[b][a][q] <= p.base[a][b])
  }

  // ---- counting -------------------------------------------------------------------------

  /** Notifications that a has sent to b. */
  function Notified(p: Exchange, a: nat, b: nat, pc: Pc): nat
    requires Valid(p) && a < p.n && b < p.n && pc.k <= |p.pieces|
  {
    Count(p, a, b, pc.k)
    + (if pc.k < |p.pieces| && Rank(pc.st) > Rank(NotifyFrom) then Lets(p, a, b, pc.k) else 0)
    + (if pc.k < |p.pieces| && Rank(pc.st) > Rank(NotifyPeer) then Sends(p, a, b, pc.k) else 0)
  }

  /** Notifications from a that b, at `pc`, has waited for. */
  function Waited(p: Exchange, a: nat, b: nat, pc: Pc): nat
    requires Valid(p) && a < p.n && b < p.n && pc.k <= |p.pieces|
  {
    Count(p, a, b, pc.k)
    + (if pc.k < |p.pieces| && Rank(pc.st) > Rank(AwaitPeer) then Lets(p, a, b, pc.k) else 0)
    + (if pc.k < |p.pieces| && Rank(pc.st) > Rank(AwaitFrom) then Sends(p, a, b, pc.k) else 0)
  }

  lemma NotifiedBound(p: Exchange, a: nat, b: nat, pc: Pc, k: nat)
    requires Valid(p) && a < p.n && b < p.n && PcOk(p, pc) && k <= |p.pieces|
    ensures pc.k < k ==> Notified(p, a, b, pc) <= Count(p, a, b, k)
    ensures pc.k >= k ==> Notified(p, a, b, pc) >= Count(p, a, b, k)
  {
    if pc.k < k { CountMono(p, a, b, pc.k + 1, k); } else { CountMono(p, a, b, k, pc.k); }
  }

  // ---- invariant --------------------------------------------------------------------------

  ghost predicate PcsOk(p: Exchange, s: State) {
    Valid(p) && Shape(p, s) && forall r :: 0 <= r < p.n ==> PcOk(p, s.pc[r])
  }

  /** Each wait is paired with one notification: nobody sends before its peer lets it, and
      nobody reads before its sender has sent. */
  ghost predicate Paired(p: Exchange, s: State, r: nat, k: nat)
    requires PcsOk(p, s) && r < p.n
  {
    k < |p.pieces| ==>
      && (Past(s.pc[r], k, AwaitPeer) ==> Past(s.pc[PeerAt(p, r, k)], k, NotifyFrom))
      && (Past(s.pc[r], k, AwaitFrom) ==> Past(s.pc[FromAt(p, r, k)], k, NotifyPeer))
  }

  /** The flags show the last two notifications. */
  ghost predicate SlotOk(p: Exchange, s: State, a: nat, b: nat)
    requires PcsOk(p, s) && a < p.n && b < p.n
  {
    var done := Notified(p, a, b, s.pc[a]);
    FlagsShow(s.slot[b][a], done, p.base[a][b] + done)
  }

  ghost predicate Control(p: Exchange, s: State) {
    && PcsOk(p, s)
    && (forall r: nat, k: nat :: r < p.n ==> Paired(p, s, r, k))
    && (forall a: nat, b: nat :: a < p.n && b < p.n ==> SlotOk(p, s, a, b))
  }

  lemma InitControl(p: Exchange, s: State)
    requires Valid(p) && Init(p, s)
    ensures Control(p, s)
  {
  }

  // ---- at most two notifications are outstanding -------------------------------------------

  /** If a got data from b, b had sent it; if a may send to b, b had let it. */
  lemma PairedMeans(p: Exchange, s: State, a: nat, b: nat, k: nat)
    requires Control(p, s) && a < p.n && b < p.n && k < |p.pieces|
    ensures Past(s.pc[a], k, AwaitFrom) && Lets(p, a, b, k) == 1 ==> Past(s.pc[b], k, NotifyPeer)
    ensures Past(s.pc[a], k, AwaitPeer) && Sends(p, a, b, k) == 1 ==> Past(s.pc[b], k, NotifyFrom)
  {
    assert Paired(p, s, a, k);
  }

  /** Between where b is and where a is, a has not notified b. */
  lemma {:induction false} NoneBetween(p: Exchange, s: State, a: nat, b: nat, j: nat)
    requires Control(p, s) && a < p.n && b < p.n && s.pc[b].k < j <= s.pc[a].k
    ensures Count(p, a, b, j) == Count(p, a, b, s.pc[b].k + 1)
    decreases j
  {
    if s.pc[b].k + 1 < j {
      NoneBetween(p, s, a, b, j - 1);
      PairedMeans(p, s, a, b, j - 1);
    }
  }

  /** Two flags suffice: a is never more than two notifications ahead of b's waits. */
  lemma Window(p: Exchange, s: State, a: nat, b: nat)
    requires Control(p, s) && a < p.n && b < p.n
    ensures Notified(p, a, b, s.pc[a]) <= Waited(p, a, b, s.pc[b]) + 2
  {
    if s.pc[a].k < s.pc[b].k {
      NotifiedBound(p, a, b, s.pc[a], s.pc[b].k);
    } else if s.pc[a].k > s.pc[b].k {
      WindowAhead(p, s, a, b);
    }
  }

  lemma WindowAhead(p: Exchange, s: State, a: nat, b: nat)
    requires Control(p, s) && a < p.n && b < p.n && s.pc[a].k > s.pc[b].k
    ensures Notified(p, a, b, s.pc[a]) <= Waited(p, a, b, s.pc[b]) + 2
  {
    var (ka, kb) := (s.pc[a].k, s.pc[b].k);
    NoneBetween(p, s, a, b, ka);
    var sent := Notified(p, a, b, s.pc[a]);
    if ka < |p.pieces| { PairedMeans(p, s, a, b, ka); }
    assert sent <= Count(p, a, b, kb + 1) + 1;
    PairedMeans(p, s, a, b, kb);
    assert Waited(p, a, b, s.pc[b]) >= Count(p, a, b, kb) + Lets(p, a, b, kb);
  }

  /** The number that a rank waits for was sent exactly when its sender is past the
      notification meant for this wait. */
  lemma NumberSent(p: Exchange, a: nat, r: nat, k: nat, pa: Pc)
    requires Valid(p) && a < p.n && r < p.n && k < |p.pieces| && PcOk(p, pa)
    ensures Lets(p, a, r, k) == 1
      ==> (ReadyNo(p, a, r, k) <= p.base[a][r] + Notified(p, a, r, pa) <==> Past(pa, k, NotifyFrom))
    ensures Sends(p, a, r, k) == 1
      ==> (DataNo(p, a, r, k) <= p.base[a][r] + Notified(p, a, r, pa) <==> Past(pa, k, NotifyPeer))
  {
    NotifiedBound(p, a, r, pa, k);
    if pa.k > k { NotifiedBound(p, a, r, pa, k + 1); }
  }

  lemma AwaitedIs(p: Exchange, r: nat, pc: Pc)
    requires Valid(p) && r < p.n && pc.k < |p.pieces| && (pc.st == AwaitPeer || pc.st == AwaitFrom)
    ensures
      var (a, v) := Awaited(p, r, pc);
      && a < p.n && v == p.base[a][r] + Waited(p, a, r, pc) + 1
      && (if pc.st == AwaitPeer then Lets(p, a, r, pc.k) == 1 else Sends(p, a, r, pc.k) == 1)
  {
    OtherWay(p, PeerAt(p, r, pc.k), r, pc.k);
    OtherWay(p, FromAt(p, r, pc.k), r, pc.k);
  }

  /** A wait ends exactly when the notification meant for it has been sent. */
  lemma WaitExact(p: Exchange, s: State, r: nat)
    requires Control(p, s) && At(p, s, r) && (s.pc[r].st == AwaitPeer || s.pc[r].st == AwaitFrom)
    ensures
      var Pc(k, st) := s.pc[r];
      Enabled(p, s, r) <==>
        if st == AwaitPeer then Past(s.pc[PeerAt(p, r, k)], k, NotifyFrom)
            else Past(s.pc[FromAt(p, r, k)], k, NotifyPeer)
  {
    var (a, v) := Awaited(p, r, s.pc[r]);
    AwaitedIs(p, r, s.pc[r]);
    FlagIsNumber(p, s, a, r, v);
    NumberSent(p, a, r, s.pc[r].k, s.pc[a]);
  }

  lemma FlagIsNumber(p: Exchange, s: State, a: nat, r: nat, v: nat)
    requires Control(p, s) && a < p.n && r < p.n && v == p.base[a][r] + Waited(p, a, r, s.pc[r]) + 1
    ensures s.slot[r][a][v % SYNC_NUM] == v <==> v <= p.base[a][r] + Notified(p, a, r, s.pc[a])
  {
    assert SlotOk(p, s, a, r);
    Window(p, s, a, r);
    FlagExact(s.slot[r][a], p.base[a][r], Notified(p, a, r, s.pc[a]), v);
  }

  // ---- preservation ---------------------------------------------------------------------------

  lemma PcStep(p: Exchange, s: State, r: nat)
    requires PcsOk(p, s) && At(p, s, r)
    ensures PcsOk(p, Apply(p, s, r))
  {
  }

  lemma NotifiedStep(p: Exchange, a: nat, b: nat, pc: Pc)
    requires Valid(p) && a < p.n && b < p.n && pc.k < |p.pieces|
    ensures Notified(p, a, b, Advance(pc)) == Notified(p, a, b, pc) + Sending(p, a, b, pc)
  {
  }

  lemma PairedStep(p: Exchange, s: State, r: nat, t: nat, k: nat)
    requires Control(p, s) && At(p, s, r) && Enabled(p, s, r) && t < p.n && PcsOk(p, Apply(p, s, r))
    ensures Paired(p, Apply(p, s, r), t, k)
  {
    assert Paired(p, s, t, k);
    if s.pc[r].st == AwaitPeer || s.pc[r].st == AwaitFrom { WaitExact(p, s, r); }
    PairedKept(p, s, Apply(p, s, r), r, t, k);
  }

  lemma PairedKept(p: Exchange, s: State, s': State, r: nat, t: nat, k: nat)
    requires PcsOk(p, s) && PcsOk(p, s') && r < p.n && t < p.n && Paired(p, s, t, k) && s.pc[r].k < |p.pieces|
    requires s'.pc == s.pc[r := Advance(s.pc[r])]
    requires s.pc[r].st == AwaitPeer ==> Past(s.pc[PeerAt(p, r, s.pc[r].k)], s.pc[r].k, NotifyFrom)
    requires s.pc[r].st == AwaitFrom ==> Past(s.pc[FromAt(p, r, s.pc[r].k)], s.pc[r].k, NotifyPeer)
    ensures Paired(p, s', t, k)
  {
  }

  /** The notification, 1 or 0, that rank a sends to b by its next stage. */
  function Sending(p: Exchange, a: nat, b: nat, pc: Pc): nat
    requires Valid(p) && a < p.n && b < p.n && pc.k < |p.pieces|
  {
    if pc.st == NotifyFrom then Lets(p, a, b, pc.k) else if pc.st == NotifyPeer then Sends(p, a, b, pc.k) else 0
  }

  lemma SlotOther(p: Exchange, s: State, r: nat, a: nat, b: nat)
    requires At(p, s, r) && a < p.n && b < p.n && (a != r || Sending(p, r, b, s.pc[r]) == 0)
    ensures |SlotAfter(p, s, r)| == p.n && |SlotAfter(p, s, r)[b]| == p.n
    ensures SlotAfter(p, s, r)[b][a] == s.slot[b][a]
  {
  }

  lemma SlotOwn(p: Exchange, s: State, r: nat, b: nat)
    requires At(p, s, r) && b < p.n && Sending(p, r, b, s.pc[r]) == 1
    ensures |SlotAfter(p, s, r)| == p.n && |SlotAfter(p, s, r)[b]| == p.n
    ensures
      var v := p.base[r][b] + Notified(p, r, b, s.pc[r]) + 1;
      SlotAfter(p, s, r)[b][r] == SetFlag(s.slot[b][r], v % SYNC_NUM, v)
  {
  }

  lemma SlotKept(p: Exchange, s: State, s': State, r: nat, a: nat, b: nat)
    requires At(p, s, r) && PcsOk(p, s) && PcsOk(p, s') && a < p.n && b < p.n && SlotOk(p, s, a, b)
    requires s'.pc == s.pc[r := Advance(s.pc[r])] && s'.slot == SlotAfter(p, s, r)
    requires a != r || Sending(p, r, b, s.pc[r]) == 0
    ensures SlotOk(p, s', a, b)
  {
    SlotOther(p, s, r, a, b);
    if a == r { NotifiedStep(p, a, b, s.pc[r]); }
    assert Notified(p, a, b, s'.pc[a]) == Notified(p, a, b, s.pc[a]);
  }

  lemma SlotSent(p: Exchange, s: State, s': State, r: nat, b: nat)
    requires At(p, s, r) && PcsOk(p, s) && PcsOk(p, s') && b < p.n && SlotOk(p, s, r, b)
    requires s'.pc == s.pc[r := Advance(s.pc[r])] && s'.slot == SlotAfter(p, s, r)
    requires Sending(p, r, b, s.pc[r]) == 1
    ensures SlotOk(p, s', r, b)
  {
    var done := Notified(p, r, b, s.pc[r]);
    NotifiedStep(p, r, b, s.pc[r]);
    SlotOwn(p, s, r, b);
    ShowsMore(s.slot[b][r], s'.slot[b][r], p.base[r][b], done, Notified(p, r, b, s'.pc[r]));
  }

  lemma ShowsMore(flags: seq<nat>, after: seq<nat>, base: nat, done: nat, now: nat)
    requires FlagsShow(flags, done, base + done) && now == done + 1
    requires after == SetFlag(flags, (base + done + 1) % SYNC_NUM, base + done + 1)
    ensures FlagsShow(after, now, base + now)
  {
    OneMore(flags, base + done, done);
  }

  lemma SlotStep(p: Exchange, s: State, r: nat, a: nat, b: nat)
    requires Control(p, s) && At(p, s, r) && Enabled(p, s, r) && a < p.n && b < p.n && PcsOk(p, Apply(p, s, r))
    ensures SlotOk(p, Apply(p, s, r), a, b)
  {
    assert SlotOk(p, s, a, b);
    if a == r && Sending(p, r, b, s.pc[r]) == 1 {
      SlotSent(p, s, Apply(p, s, r), r, b);
    } else {
      SlotKept(p, s, Apply(p, s, r), r, a, b);
    }
  }

  lemma ControlStep(p: Exchange, s: State, r: nat)
    requires Control(p, s) && At(p, s, r) && Enabled(p, s, r)
    ensures Control(p, Apply(p, s, r))
  {
    var s' := Apply(p, s, r);
    PcStep(p, s, r);
    forall t: nat, k: nat | t < p.n ensures Paired(p, s', t, k) { PairedStep(p, s, r, t, k); }
    forall a: nat, b: nat | a < p.n && b < p.n ensures SlotOk(p, s', a, b) { SlotStep(p, s, r, a, b); }
  }

  // ---- buffers ----------------------------------------------------------------------------------

  /** While a rank may write its peer's receive buffer, the peer waits for it in the same
      piece: so no two ranks may write one buffer, and its owner does not read it then. */
  lemma SingleWriter(p: Exchange, s: State, r: nat)
    requires Control(p, s) && At(p, s, r) && (s.pc[r].st == Push || s.pc[r].st == NotifyPeer)
    ensures
      var (k, b) := (s.pc[r].k, PeerAt(p, r, s.pc[r].k));
      s.pc[b].k == k && Rank(NotifyFrom) < Rank(s.pc[b].st) <= Rank(AwaitFrom)
  {
    var (k, b) := (s.pc[r].k, PeerAt(p, r, s.pc[r].k));
    assert Paired(p, s, r, k) && Paired(p, s, b, k);
    OtherWay(p, b, r, k);
  }

  ghost predicate Loaded(p: Exchange, s: State, r: nat)
    requires PcsOk(p, s) && r < p.n
  {
    var Pc(k, st) := s.pc[r];
    k < |p.pieces| && Rank(st) > Rank(Load) ==> s.inb[r] == Leaf(r, k, PeerAt(p, r, k))
  }

  ghost predicate Arrived(p: Exchange, s: State, r: nat, k: nat)
    requires PcsOk(p, s) && r < p.n
  {
    k < |p.pieces| && Past(s.pc[r], k, Push) && !Past(s.pc[PeerAt(p, r, k)], k, CopyOut) ==>
      s.out[PeerAt(p, r, k)] == Leaf(r, k, PeerAt(p, r, k))
  }

  ghost predicate Received(p: Exchange, s: State, r: nat, k: nat)
    requires PcsOk(p, s) && r < p.n
  {
    k < |p.pieces| && Past(s.pc[r], k, CopyOut) ==> k in s.user[r] && s.user[r][k] == Leaf(FromAt(p, r, k), k, r)
  }

  ghost predicate Inv(p: Exchange, s: State) {
    && Control(p, s)
    && (forall r :: 0 <= r < p.n ==> Loaded(p, s, r))
    && (forall r: nat, k: nat :: r < p.n ==> Arrived(p, s, r, k) && Received(p, s, r, k))
  }

  lemma ArrivedStep(p: Exchange, s: State, r: nat, t: nat, k: nat)
    requires Inv(p, s) && At(p, s, r) && Enabled(p, s, r) && t < p.n && PcsOk(p, Apply(p, s, r))
    ensures Arrived(p, Apply(p, s, r), t, k)
  {
    assert Arrived(p, s, t, k) && Loaded(p, s, r);
    if k < |p.pieces| && s.pc[r].st == Push {
      SingleWriter(p, s, r);
      assert Paired(p, s, t, k);
      OtherWay(p, PeerAt(p, t, k), r, k);
      OtherWay(p, PeerAt(p, t, k), t, k);
    }
  }

  lemma ReceivedStep(p: Exchange, s: State, r: nat, t: nat, k: nat)
    requires Inv(p, s) && At(p, s, r) && Enabled(p, s, r) && t < p.n && PcsOk(p, Apply(p, s, r))
    ensures Received(p, Apply(p, s, r), t, k)
  {
    assert Received(p, s, t, k);
    if k < |p.pieces| && t == r && s.pc[r] == Pc(k, CopyOut) {
      var f := FromAt(p, r, k);
      assert Paired(p, s, r, k) && Arrived(p, s, f, k);
      OtherWay(p, r, f, k);
    }
  }

  lemma StepInv(p: Exchange, s: State, r: nat)
    requires Inv(p, s) && At(p, s, r) && Enabled(p, s, r)
    ensures Inv(p, Apply(p, s, r))
  {
    var s' := Apply(p, s, r);
    ControlStep(p, s, r);
    forall t | 0 <= t < p.n ensures Loaded(p, s', t) { assert Loaded(p, s, t); }
    forall t: nat, k: nat | t < p.n ensures Arrived(p, s', t, k) && Received(p, s', t, k) {
      ArrivedStep(p, s, r, t, k);
      ReceivedStep(p, s, r, t, k);
    }
  }

  // ---- whole runs -----------------------------------------------------------------------------------

  ghost predicate Step(p: Exchange, s: State, s': State) {
    exists r: nat :: At(p, s, r) && Enabled(p, s, r) && s' == Apply(p, s, r)
  }

  ghost predicate Run(p: Exchange, tr: seq<State>)
    requires Valid(p)
  {
    && tr != [] && Init(p, tr[0])
    && (forall i :: 0 <= i < |tr| ==> Shape(p, tr[i]))
    && forall i :: 0 < i < |tr| ==> Step(p, tr[i - 1], tr[i])
  }

  lemma {:induction false} RunInv(p: Exchange, tr: seq<State>)
    requires Valid(p) && Run(p, tr)
    ensures Inv(p, tr[|tr| - 1])
    decreases |tr|
  {
    if |tr| == 1 {
      InitControl(p, tr[0]);
    } else {
      var s := tr[|tr| - 2];
      assert tr[..|tr| - 1][|tr| - 2] == s;
      RunInv(p, tr[..|tr| - 1]);
      assert Step(p, s, tr[|tr| - 1]);
      var r: nat :| At(p, s, r) && Enabled(p, s, r) && tr[|tr| - 1] == Apply(p, s, r);
      StepInv(p, s, r);
    }
  }

  /** A rank that has left a piece has in it what the rank of that round had for it. */
  lemma AlltoallDelivers(p: Exchange, tr: seq<State>, r: nat, k: nat)
    requires Valid(p) && Run(p, tr) && r < p.n && k < |p.pieces| && k < tr[|tr| - 1].pc[r].k
    ensures
      var user := tr[|tr| - 1].user[r];
      k in user && user[k] == Leaf(FromAt(p, r, k), k, r)
  {
    RunInv(p, tr);
    assert Received(p, tr[|tr| - 1], r, k);
  }

  /** At any time at most one rank may write a given receive buffer, also in the round where
      a rank sends to and receives from the same one. */
  lemma OneWriter(p: Exchange, tr: seq<State>, r: nat, t: nat)
    requires Valid(p) && Run(p, tr) && At(p, tr[|tr| - 1], r) && At(p, tr[|tr| - 1], t) && r != t
    requires tr[|tr| - 1].pc[r].st == Push && tr[|tr| - 1].pc[t].st == Push
    ensures PeerAt(p, r, tr[|tr| - 1].pc[r].k) != PeerAt(p, t, tr[|tr| - 1].pc[t].k)
  {
    var s := tr[|tr| - 1];
    RunInv(p, tr);
    SingleWriter(p, s, r);
    SingleWriter(p, s, t);
  }

  /** No notification is overwritten before it was waited for. */
  lemma NothingOverwritten(p: Exchange, tr: seq<State>, a: nat, b: nat)
    requires Valid(p) && Run(p, tr) && a < p.n && b < p.n
    ensures PcsOk(p, tr[|tr| - 1])
    ensures
      var s := tr[|tr| - 1];
      var (sent, got) := (Notified(p, a, b, s.pc[a]), Waited(p, a, b, s.pc[b]));
      && got <= sent <= got + 2
      && forall v :: p.base[a][b] + got < v <= p.base[a][b] + sent ==> s.slot[b][a][v % SYNC_NUM] == v
  {
    var s := tr[|tr| - 1];
    RunInv(p, tr);
    Window(p, s, a, b);
    assert SlotOk(p, s, a, b);
    WaitsBehind(p, s, a, b);
  }

  lemma WaitsBehind(p: Exchange, s: State, a: nat, b: nat)
    requires Control(p, s) && a < p.n && b < p.n
    ensures Waited(p, a, b, s.pc[b]) <= Notified(p, a, b, s.pc[a])
  {
    var (ka, kb) := (s.pc[a].k, s.pc[b].k);
    if ka > kb {
      NotifiedBound(p, a, b, s.pc[a], kb + 1);
    } else {
      if kb < |p.pieces| { WaitsNow(p, s, a, b); }
      if ka < kb { LaterNone(p, s, a, b, kb); }
    }
  }

  /** In its present piece b has waited for nothing that a has not sent. */
  lemma WaitsNow(p: Exchange, s: State, a: nat, b: nat)
    requires Control(p, s) && a < p.n && b < p.n && s.pc[a].k <= s.pc[b].k < |p.pieces|
    ensures s.pc[a].k < s.pc[b].k ==> Waited(p, a, b, s.pc[b]) == Count(p, a, b, s.pc[b].k)
    ensures s.pc[a].k == s.pc[b].k ==> Waited(p, a, b, s.pc[b]) <= Notified(p, a, b, s.pc[a])
  {
    OtherWay(p, b, a, s.pc[b].k);
    PairedMeans(p, s, b, a, s.pc[b].k);
  }

  /** Of the pieces that b has finished, a has sent all its notifications. */
  lemma {:induction false} LaterNone(p: Exchange, s: State, a: nat, b: nat, j: nat)
    requires Control(p, s) && a < p.n && b < p.n && s.pc[a].k < j <= s.pc[b].k
    ensures Count(p, a, b, j) == Notified(p, a, b, s.pc[a])
    decreases j
  {
    if s.pc[a].k + 1 < j {
      LaterNone(p, s, a, b, j - 1);
      NoneNew(p, s, a, b, j - 1);
    } else {
      OtherWay(p, b, a, j - 1);
      PairedMeans(p, s, b, a, j - 1);
    }
  }

  /** In a piece that a has not come to and b has finished neither notifies the other. */
  lemma NoneNew(p: Exchange, s: State, a: nat, b: nat, k: nat)
    requires Control(p, s) && a < p.n && b < p.n && s.pc[a].k < k < s.pc[b].k
    ensures Count(p, a, b, k + 1) == Count(p, a, b, k)
  {
    OtherWay(p, b, a, k);
    PairedMeans(p, s, b, a, k);
  }

  // ---- progress --------------------------------------------------------------------------------------

  function Position(pc: Pc): nat {
    9 * pc.k + Rank(pc.st)
  }

  lemma {:induction false} Last(p: Exchange, s: State, k: nat) returns (r: nat)
    requires PcsOk(p, s) && 0 < k <= p.n
    ensures r < k && forall t :: 0 <= t < k ==> Position(s.pc[r]) <= Position(s.pc[t])
    decreases k
  {
    if k == 1 {
      r := 0;
    } else {
      r := Last(p, s, k - 1);
      if Position(s.pc[k - 1]) < Position(s.pc[r]) { r := k - 1; }
    }
  }

  ghost predicate SomeoneCanStep(p: Exchange, s: State) {
    exists r: nat :: At(p, s, r) && Enabled(p, s, r)
  }

  /** As long as some rank is not finished, some rank can take a step. */
  lemma AlltoallNeverDeadlocks(p: Exchange, tr: seq<State>, t: nat)
    requires Valid(p) && Run(p, tr) && t < p.n && tr[|tr| - 1].pc[t].k < |p.pieces|
    ensures SomeoneCanStep(p, tr[|tr| - 1])
  {
    var s := tr[|tr| - 1];
    RunInv(p, tr);
    var r := Last(p, s, p.n);
    assert Position(s.pc[r]) <= Position(s.pc[t]);
    if s.pc[r].st == AwaitPeer || s.pc[r].st == AwaitFrom { WaitExact(p, s, r); }
    assert At(p, s, r) && Enabled(p, s, r);
  }

  function Total(s: State, k: nat): nat
    requires k <= |s.pc|
  {
    if k == 0 then 0 else Total(s, k - 1) + Position(s.pc[k - 1])
  }

  lemma {:induction false} TotalGrows(s: State, s': State, r: nat, k: nat)
    requires k <= |s.pc| == |s'.pc| && r < |s.pc| && s'.pc == s.pc[r := Advance(s.pc[r])]
    ensures Total(s', k) == Total(s, k) + if r < k then 1 else 0
    decreases k
  {
    if k > 0 { TotalGrows(s, s', r, k - 1); }
  }

  lemma {:induction false} TotalBound(p: Exchange, s: State, k: nat)
    requires PcsOk(p, s) && k <= p.n
    ensures Total(s, k) <= Times(k, 9 * |p.pieces|)
    decreases k
  {
    if k > 0 { TotalBound(p, s, k - 1); }
  }

  lemma {:induction false} RunTotal(p: Exchange, tr: seq<State>)
    requires Valid(p) && Run(p, tr)
    ensures Inv(p, tr[|tr| - 1]) && |tr| <= 1 + Total(tr[|tr| - 1], p.n)
    decreases |tr|
  {
    RunInv(p, tr);
    if |tr| > 1 {
      var before := tr[..|tr| - 1];
      RunTotal(p, before);
      var (s, s') := (before[|tr| - 2], tr[|tr| - 1]);
      assert Step(p, tr[|tr| - 2], tr[|tr| - 1]);
      var r: nat :| At(p, s, r) && Enabled(p, s, r) && s' == Apply(p, s, r);
      TotalGrows(s, s', r, p.n);
    }
  }

  /** Runs are bounded, so a run that cannot be extended has finished everywhere. */
  lemma AlltoallTerminates(p: Exchange, tr: seq<State>)
    requires Valid(p) && Run(p, tr)
    ensures |tr| <= 1 + Times(p.n, 9 * |p.pieces|)
  {
    RunTotal(p, tr);
    TotalBound(p, tr[|tr| - 1], p.n);
  }

  // ---- the transpose ------------------------------------------------------------------------------------

  /** Every byte of every other rank's block is in exactly one piece. */
  lemma {:induction false} RoundCovers(i: nat, size: nat, off: nat, x: nat)
    requires off <= x < size
    ensures exists q :: q in RoundPieces(i, size, off) && q.round == i && q.off <= x < q.off + q.len
    decreases size - off
  {
    var len := if off + MAX_SIZE > size then size - off else MAX_SIZE;
    if x < off + len {
      assert Piece(i, off, len) in RoundPieces(i, size, off);
    } else {
      RoundCovers(i, size, off + len, x);
      var q :| q in RoundPieces(i, size, off + len) && q.round == i && q.off <= x < q.off + q.len;
      assert q in RoundPieces(i, size, off);
    }
  }

  lemma {:induction false} PiecesCover(n: nat, size: nat, first: nat, i: nat, x: nat)
    requires 0 < first <= i < n && x < size
    ensures exists q :: q in Pieces(n, size, first) && q.round == i && q.off <= x < q.off + q.len
    decreases n - first
  {
    if first == i {
      RoundCovers(i, size, 0, x);
      var q :| q in RoundPieces(i, size, 0) && q.round == i && q.off <= x < q.off + q.len;
      assert q in Pieces(n, size, first);
    } else {
      PiecesCover(n, size, first + 1, i, x);
      var q :| q in Pieces(n, size, first + 1) && q.round == i && q.off <= x < q.off + q.len;
      assert q in Pieces(n, size, first);
    }
  }

  /** Alltoall is a transpose.  When rank r is done, byte x of the block that rank f had for
      r (at offset r * size + x of f's data) is at offset f * size + x of r's. */
  lemma AlltoallTransposes(p: Exchange, tr: seq<State>, size: nat, r: nat, f: nat, x: nat) returns (k: nat)
    requires Valid(p) && Run(p, tr) && p.pieces == Pieces(p.n, size, 1)
    requires r < p.n && f < p.n && r != f && x < size && tr[|tr| - 1].pc[r].k == |p.pieces|
    ensures k < |p.pieces| && p.pieces[k].off <= x < p.pieces[k].off + p.pieces[k].len
    ensures FromAt(p, r, k) == f && PeerAt(p, f, k) == r
    ensures k in tr[|tr| - 1].user[r] && tr[|tr| - 1].user[r][k] == Leaf(f, k, r)
  {
    var i := if f < r then r - f else r + p.n - f;
    PiecesCover(p.n, size, 1, i, x);
    var q :| q in p.pieces && q.round == i && q.off <= x < q.off + q.len;
    k :| k < |p.pieces| && p.pieces[k] == q;
    AlltoallDelivers(p, tr, r, k);
  }
}
