/** Send and Recv between pairs of ranks: a rendezvous through two-slot counters.

    The receiver lets the sender send, the sender pushes into the receiver's one receive
    buffer and says so, the receiver copies out (Send and Recv branches of
    tcclEnqueueCheck_func in src/enqueue.cc).  A program is a sequence of slots; in each
    slot a rank sends one piece, receives one, or has nothing to do. */
module Rendezvous {
  import opened Arith
  import opened Terms
  import opened TwoSlots

  /** Whom a rank sends to or receives from, and which piece of theirs it is. */
  datatype Role = Idle | Send(to: nat, piece: nat) | Recv(from: nat, piece: nat)

  /** Ranks, who does what in each slot, and the counters sendcntall at the start. */
  datatype Exchange = Exchange(n: nat, slots: seq<seq<Role>>, base: seq<seq<nat>>)

  /** Sends and receives match. */
  ghost predicate SlotOk(n: nat, roles: seq<Role>) {
    && |roles| == n
    && forall r :: 0 <= r < n ==> RoleOk(n, roles, r)
  }

  predicate RoleOk(n: nat, roles: seq<Role>, r: nat)
    requires r < n == |roles|
  {
    match roles[r]
    case Idle => true
    case Send(b, q) => b < n && b != r && roles[b] == Recv(r, q)
    case Recv(b, q) => b < n && b != r && roles[b] == Send(r, q)
  }

  ghost predicate Valid(p: Exchange) {
    && |p.base| == p.n
    && (forall a :: 0 <= a < p.n ==> |p.base[a]| == p.n)
    && (forall k :: 0 <= k < |p.slots| ==> SlotOk(p.n, p.slots[k]))
  }

  function RoleAt(p: Exchange, r: nat, k: nat): (role: Role)
    requires Valid(p) && r < p.n && k < |p.slots|
    ensures role.Send? ==> role.to < p.n && role.to != r && p.slots[k][role.to] == Recv(r, role.piece)
    ensures role.Recv? ==> role.from < p.n && role.from != r && p.slots[k][role.from] == Send(r, role.piece)
  {
    assert SlotOk(p.n, p.slots[k]) && RoleOk(p.n, p.slots[k], r);
    p.slots[k][r]
  }

  /** Ranks a and b work together in slot k (1 or 0). */
  function Pairs(p: Exchange, a: nat, b: nat, k: nat): nat
    requires Valid(p) && a < p.n && b < p.n && k < |p.slots|
  {
    var role := RoleAt(p, a, k);
    if (role.Send? && role.to == b) || (role.Recv? && role.from == b) then 1 else 0
  }

  lemma PairsBothWays(p: Exchange, a: nat, b: nat, k: nat)
    requires Valid(p) && a < p.n && b < p.n && k < |p.slots|
    ensures Pairs(p, a, b, k) == Pairs(p, b, a, k)
    ensures forall q :: RoleAt(p, a, k) == Send(b, q) <==> RoleAt(p, b, k) == Recv(a, q)
  {
  }

  /** Notifications from a to b in slots 0..k-1: one a slot, in either role. */
  function Count(p: Exchange, a: nat, b: nat, k: nat): nat
    requires Valid(p) && a < p.n && b < p.n && k <= |p.slots|
  {
    if k == 0 then 0 else Count(p, a, b, k - 1) + Pairs(p, a, b, k - 1)
  }

  lemma {:induction false} CountMono(p: Exchange, a: nat, b: nat, k: nat, j: nat)
    requires Valid(p) && a < p.n && b < p.n && k <= j <= |p.slots|
    ensures Count(p, a, b, k) <= Count(p, a, b, j)
    decreases j
  {
    if k < j { CountMono(p, a, b, k, j - 1); }
  }

  // ---- the program of a rank ------------------------------------------------------------

  datatype Stage = Skip | NotifyReady | Load | AwaitReady | Push | NotifyData | AwaitData | CopyOut

  datatype Pc = Pc(k: nat, st: Stage)

  function Rank(st: Stage): nat {
    match st
    case Skip => 0 case NotifyReady => 0 case Load => 0 case AwaitReady => 1
    case Push => 2 case NotifyData => 3 case AwaitData => 4 case CopyOut => 5
  }

  function FirstStage(role: Role): Stage {
    match role case Idle => Skip case Send(_, _) => Load case Recv(_, _) => NotifyReady
  }

  /** At the end of the program a rank stays at a Skip that it never executes. */
  function Begin(p: Exchange, r: nat, k: nat): Pc
    requires Valid(p) && r < p.n
  {
    if k < |p.slots| then Pc(k, FirstStage(RoleAt(p, r, k))) else Pc(|p.slots|, Skip)
  }

  function Advance(p: Exchange, r: nat, pc: Pc): Pc
    requires Valid(p) && r < p.n && pc.k < |p.slots|
  {
    match pc.st
    case Skip => Begin(p, r, pc.k + 1)
    case Load => Pc(pc.k, AwaitReady)
    case AwaitReady => Pc(pc.k, Push)
    case Push => Pc(pc.k, NotifyData)
    case NotifyData => Begin(p, r, pc.k + 1)
    case NotifyReady => Pc(pc.k, AwaitData)
    case AwaitData => Pc(pc.k, CopyOut)
    case CopyOut => Begin(p, r, pc.k + 1)
  }

  predicate StageOk(role: Role, st: Stage) {
    match role
    case Idle => st == Skip
    case Send(_, _) => st == Load || st == AwaitReady || st == Push || st == NotifyData
    case Recv(_, _) => st == NotifyReady || st == AwaitData || st == CopyOut
  }

  predicate PcOk(p: Exchange, r: nat, pc: Pc)
    requires Valid(p) && r < p.n
  {
    if pc.k < |p.slots| then StageOk(RoleAt(p, r, pc.k), pc.st) else pc == Pc(|p.slots|, Skip)
  }

  /** The rank has executed stage `st` of slot k. */
  predicate Past(pc: Pc, k: nat, st: Stage) {
    pc.k > k || (pc.k == k && Rank(pc.st) > Rank(st))
  }

  /** The rank with which r works in slot k. */
  function Mate(p: Exchange, r: nat, k: nat): (b: nat)
    requires Valid(p) && r < p.n && k < |p.slots| && RoleAt(p, r, k) != Idle
    ensures b < p.n && b != r && Pairs(p, b, r, k) == 1
  {
    PairsBothWays(p, if RoleAt(p, r, k).Send? then RoleAt(p, r, k).to else RoleAt(p, r, k).from, r, k);
    if RoleAt(p, r, k).Send? then RoleAt(p, r, k).to else RoleAt(p, r, k).from
  }

  /** The number of a slot's notification from a to b, and of the wait for it. */
  function Number(p: Exchange, a: nat, b: nat, k: nat): nat
    requires Valid(p) && a < p.n && b < p.n && k < |p.slots|
  {
    p.base[a][b] + Count(p, a, b, k) + 1
  }

  // ---- all ranks ------------------------------------------------------------------------

  /** `slot[b][a]` are the two flags at rank b that rank a notifies. */
  datatype State = State(pc: seq<Pc>, slot: seq<seq<seq<nat>>>,
                         inb: seq<Term>, out: seq<Term>, user: seq<map<nat, Term>>)

  predicate Shape(p: Exchange, s: State) {
    && |s.pc| == |s.slot| == |s.inb| == |s.out| == |s.user| == p.n
    && (forall b :: 0 <= b < p.n ==> |s.slot[b]| == p.n)
    && (forall b, a :: 0 <= b < p.n && 0 <= a < p.n ==> |s.slot[b][a]| == SYNC_NUM)
  }

  ghost predicate At(p: Exchange, s: State, r: nat) {
    Valid(p) && Shape(p, s) && r < p.n && s.pc[r].k < |p.slots| && PcOk(p, r, s.pc[r])
  }

  predicate Notifies(st: Stage) {
    st == NotifyReady || st == NotifyData
  }

  predicate Awaits(st: Stage) {
    st == AwaitReady || st == AwaitData
  }

  predicate Enabled(p: Exchange, s: State, r: nat)
    requires At(p, s, r)
  {
    var Pc(k, st) := s.pc[r];
    Awaits(st) ==> var v := Number(p, Mate(p, r, k), r, k); s.slot[r][Mate(p, r, k)][v % SYNC_NUM] == v
  }

  function Record(user: map<nat, Term>, k: nat, v: Term): map<nat, Term> {
    user[k := v]
  }

  function SlotAfter(p: Exchange, s: State, r: nat): seq<seq<seq<nat>>>
    requires At(p, s, r)
  {
    var Pc(k, st) := s.pc[r];
    if Notifies(st) then var b := Mate(p, r, k); s.slot[b := Put(s.slot[b], r, Number(p, r, b, k))] else s.slot
  }

  function Apply(p: Exchange, s: State, r: nat): State
    requires At(p, s, r)
  {
    var Pc(k, st) := s.pc[r];
    State(s.pc[r := Advance(p, r, s.pc[r])],
          SlotAfter(p, s, r),
          if st == Load then s.inb[r := Leaf(r, k, Mate(p, r, k))] else s.inb,
          if st == Push then s.out[Mate(p, r, k) := s.inb[r]] else s.out,
          if st == CopyOut then s.user[r := Record(s.user[r], k, s.out[r])] else s.user)
  }

  /** Any flags that the counters have reached. */
  ghost predicate Init(p: Exchange, s: State)
    requires Valid(p)
  {
    && Shape(p, s)
    && (forall r :: 0 <= r < p.n ==> s.pc[r] == Begin(p, r, 0))
    && (forall a, b, q :: 0 <= a < p.n && 0 <= b < p.n && 0 <= q < SYNC_NUM ==> s.slot[b][a][q] <= p.base[a][b])
  }

  // ---- counting ---------------------------------------------------------------------------

  /** The rank has notified its mate in slot k; it has waited for its mate in slot k. */
  predicate Told(pc: Pc, k: nat) {
    pc.k > k || (pc.k == k && (pc.st == AwaitData || pc.st == CopyOut))
  }

  predicate Heard(pc: Pc, k: nat) {
    pc.k > k || (pc.k == k && (pc.st == Push || pc.st == NotifyData || pc.st == CopyOut))
  }

  /** Notifications that a, at `pc`, has sent to b. */
  function Notified(p: Exchange, a: nat, b: nat, pc: Pc): nat
    requires Valid(p) && a < p.n && b < p.n && pc.k <= |p.slots|
  {
    Count(p, a, b, pc.k) + if pc.k < |p.slots| && Told(pc, pc.k) then Pairs(p, a, b, pc.k) else 0
  }

  /** Notifications from a that b, at `pc`, has waited for. */
  function Waited(p: Exchange, a: nat, b: nat, pc: Pc): nat
    requires Valid(p) && a < p.n && b < p.n && pc.k <= |p.slots|
  {
    Count(p, a, b, pc.k) + if pc.k < |p.slots| && Heard(pc, pc.k) then Pairs(p, a, b, pc.k) else 0
  }

  lemma NotifiedBound(p: Exchange, a: nat, b: nat, pc: Pc, k: nat)
    requires Valid(p) && a < p.n && b < p.n && k <= |p.slots| && pc.k <= |p.slots|
    ensures pc.k < k ==> Notified(p, a, b, pc) <= Count(p, a, b, k)
    ensures pc.k >= k ==> Notified(p, a, b, pc) >= Count(p, a, b, k)
  {
    if pc.k < k { CountMono(p, a, b, pc.k + 1, k); } else { CountMono(p, a, b, k, pc.k); }
  }

  // ---- invariant ------------------------------------------------------------------------------

  ghost predicate PcsOk(p: Exchange, s: State) {
    Valid(p) && Shape(p, s) && forall r :: 0 <= r < p.n ==> PcOk(p, r, s.pc[r])
  }

  /** Each wait is paired with the mate's notification in the same slot. */
  ghost predicate Paired(p: Exchange, s: State, a: nat, b: nat, k: nat)
    requires PcsOk(p, s) && a < p.n && b < p.n
  {
    k < |p.slots| && Pairs(p, a, b, k) == 1 && Heard(s.pc[a], k) ==> Told(s.pc[b], k)
  }

  ghost predicate FlagsOk(p: Exchange, s: State, a: nat, b: nat)
    requires PcsOk(p, s) && a < p.n && b < p.n
  {
    var done := Notified(p, a, b, s.pc[a]);
    FlagsShow(s.slot[b][a], done, p.base[a][b] + done)
  }

  ghost predicate Control(p: Exchange, s: State) {
    && PcsOk(p, s)
    && (forall a: nat, b: nat, k: nat :: a < p.n && b < p.n ==> Paired(p, s, a, b, k))
    && (forall a: nat, b: nat :: a < p.n && b < p.n ==> FlagsOk(p, s, a, b))
  }

  lemma InitControl(p: Exchange, s: State)
    requires Valid(p) && Init(p, s)
    ensures Control(p, s)
  {
  }

  /** Between where b is and where a is, a has not worked with b. */
  lemma {:induction false} NoneBetween(p: Exchange, s: State, a: nat, b: nat, j: nat)
    requires Control(p, s) && a < p.n && b < p.n && s.pc[b].k < j <= s.pc[a].k
    ensures Count(p, a, b, j) == Count(p, a, b, s.pc[b].k + 1)
    decreases j
  {
    if s.pc[b].k + 1 < j {
      NoneBetween(p, s, a, b, j - 1);
      assert Paired(p, s, a, b, j - 1);
    }
  }

  /** Two flags suffice: a is never more than two notifications ahead of b's waits. */
  lemma Window(p: Exchange, s: State, a: nat, b: nat)
    requires Control(p, s) && a < p.n && b < p.n
    ensures Notified(p, a, b, s.pc[a]) <= Waited(p, a, b, s.pc[b]) + 2
  {
    if s.pc[a].k < s.pc[b].k {
      NotifiedBound(p, a, b, s.pc[a], s.pc[b].k);
    } else if s.pc[a].k > s.pc[b].k {
      NoneBetween(p, s, a, b, s.pc[a].k);
    }
  }

  /** A wait ends exactly when the mate has sent its notification of the same slot. */
  lemma WaitExact(p: Exchange, s: State, r: nat)
    requires Control(p, s) && At(p, s, r) && Awaits(s.pc[r].st)
    ensures Enabled(p, s, r) <==> Told(s.pc[Mate(p, r, s.pc[r].k)], s.pc[r].k)
  {
    var k := s.pc[r].k;
    var a := Mate(p, r, k);
    assert FlagsOk(p, s, a, r);
    Window(p, s, a, r);
    FlagExact(s.slot[r][a], p.base[a][r], Notified(p, a, r, s.pc[a]), Number(p, a, r, k));
    NumberSent(p, a, r, k, s.pc[a]);
  }

  lemma NumberSent(p: Exchange, a: nat, r: nat, k: nat, pa: Pc)
    requires Valid(p) && a < p.n && r < p.n && k < |p.slots| && pa.k <= |p.slots| && Pairs(p, a, r, k) == 1
    ensures Number(p, a, r, k) <= p.base[a][r] + Notified(p, a, r, pa) <==> Told(pa, k)
  {
    NotifiedBound(p, a, r, pa, k);
    if pa.k > k { NotifiedBound(p, a, r, pa, k + 1); }
  }

  // ---- preservation ---------------------------------------------------------------------------

  lemma PcStep(p: Exchange, s: State, r: nat)
    requires PcsOk(p, s) && At(p, s, r)
    ensures PcsOk(p, Apply(p, s, r))
  {
  }

  lemma ToldStep(p: Exchange, r: nat, pc: Pc, k: nat)
    requires Valid(p) && r < p.n && pc.k < |p.slots| && PcOk(p, r, pc) && k < |p.slots| && RoleAt(p, r, k) != Idle
    ensures Told(Advance(p, r, pc), k) <==> Told(pc, k) || (pc.k == k && Notifies(pc.st))
    ensures Heard(Advance(p, r, pc), k) <==> Heard(pc, k) || (pc.k == k && Awaits(pc.st))
  {
  }

  lemma PairedStep(p: Exchange, s: State, r: nat, a: nat, b: nat, k: nat)
    requires Control(p, s) && At(p, s, r) && Enabled(p, s, r) && a < p.n && b < p.n && PcsOk(p, Apply(p, s, r))
    ensures Paired(p, Apply(p, s, r), a, b, k)
  {
    assert Paired(p, s, a, b, k);
    if k < |p.slots| && Pairs(p, a, b, k) == 1 {
      PairsBothWays(p, a, b, k);
      if r == a || r == b { ToldStep(p, r, s.pc[r], k); }
      if a == r && s.pc[r].k == k && Awaits(s.pc[r].st) { WaitExact(p, s, r); }
    }
  }

  /** The notification, 1 or 0, that rank a sends to b by its next stage. */
  function Sending(p: Exchange, a: nat, b: nat, pc: Pc): nat
    requires Valid(p) && a < p.n && b < p.n && pc.k < |p.slots|
  {
    if Notifies(pc.st) then Pairs(p, a, b, pc.k) else 0
  }

  lemma NotifiedStep(p: Exchange, a: nat, b: nat, pc: Pc)
    requires Valid(p) && a < p.n && b < p.n && pc.k < |p.slots| && PcOk(p, a, pc)
    ensures Advance(p, a, pc).k <= |p.slots|
    ensures Notified(p, a, b, Advance(p, a, pc)) == Notified(p, a, b, pc) + Sending(p, a, b, pc)
  {
  }

  lemma SlotOther(p: Exchange, s: State, r: nat, a: nat, b: nat)
    requires At(p, s, r) && a < p.n && b < p.n && (a != r || Sending(p, r, b, s.pc[r]) == 0)
    ensures |SlotAfter(p, s, r)| == p.n && |SlotAfter(p, s, r)[b]| == p.n
    ensures SlotAfter(p, s, r)[b][a] == s.slot[b][a]
  {
    if Notifies(s.pc[r].st) { PairsBothWays(p, r, b, s.pc[r].k); }
  }

  lemma SlotOwn(p: Exchange, s: State, r: nat, b: nat)
    requires At(p, s, r) && b < p.n && Sending(p, r, b, s.pc[r]) == 1
    ensures |SlotAfter(p, s, r)| == p.n && |SlotAfter(p, s, r)[b]| == p.n
    ensures
      var v := p.base[r][b] + Notified(p, r, b, s.pc[r]) + 1;
      SlotAfter(p, s, r)[b][r] == SetFlag(s.slot[b][r], v % SYNC_NUM, v)
  {
  }

  lemma FlagsKept(p: Exchange, s: State, s': State, r: nat, a: nat, b: nat)
    requires At(p, s, r) && PcsOk(p, s) && PcsOk(p, s') && a < p.n && b < p.n && FlagsOk(p, s, a, b)
    requires s'.pc == s.pc[r := Advance(p, r, s.pc[r])] && s'.slot == SlotAfter(p, s, r)
    requires a != r || Sending(p, r, b, s.pc[r]) == 0
    ensures FlagsOk(p, s', a, b)
  {
    SlotOther(p, s, r, a, b);
    if a == r { NotifiedStep(p, a, b, s.pc[r]); }
    assert Notified(p, a, b, s'.pc[a]) == Notified(p, a, b, s.pc[a]);
  }

  lemma FlagsSent(p: Exchange, s: State, s': State, r: nat, b: nat)
    requires At(p, s, r) && PcsOk(p, s) && PcsOk(p, s') && b < p.n && FlagsOk(p, s, r, b)
    requires s'.pc == s.pc[r := Advance(p, r, s.pc[r])] && s'.slot == SlotAfter(p, s, r)
    requires Sending(p, r, b, s.pc[r]) == 1
    ensures FlagsOk(p, s', r, b)
  {
    var done := Notified(p, r, b, s.pc[r]);
    NotifiedStep(p, r, b, s.pc[r]);
    SlotOwn(p, s, r, b);
    OneMore(s.slot[b][r], p.base[r][b] + done, done);
    assert Notified(p, r, b, s'.pc[r]) == done + 1;
  }

  lemma FlagsStep(p: Exchange, s: State, r: nat, a: nat, b: nat)
    requires Control(p, s) && At(p, s, r) && Enabled(p, s, r) && a < p.n && b < p.n && PcsOk(p, Apply(p, s, r))
    ensures FlagsOk(p, Apply(p, s, r), a, b)
  {
    assert FlagsOk(p, s, a, b);
    if a == r && Sending(p, r, b, s.pc[r]) == 1 {
      FlagsSent(p, s, Apply(p, s, r), r, b);
    } else {
      FlagsKept(p, s, Apply(p, s, r), r, a, b);
    }
  }

  lemma ControlStep(p: Exchange, s: State, r: nat)
    requires Control(p, s) && At(p, s, r) && Enabled(p, s, r)
    ensures Control(p, Apply(p, s, r))
  {
    var s' := Apply(p, s, r);
    PcStep(p, s, r);
    forall a: nat, b: nat, k: nat | a < p.n && b < p.n ensures Paired(p, s', a, b, k) { PairedStep(p, s, r, a, b, k); }
    forall a: nat, b: nat | a < p.n && b < p.n ensures FlagsOk(p, s', a, b) { FlagsStep(p, s, r, a, b); }
  }

  // ---- buffers ----------------------------------------------------------------------------------

  /** While a rank may write its mate's receive buffer, the mate waits for the data. */
  lemma SingleWriter(p: Exchange, s: State, r: nat)
    requires Control(p, s) && At(p, s, r) && (s.pc[r].st == Push || s.pc[r].st == NotifyData)
    ensures s.pc[Mate(p, r, s.pc[r].k)] == Pc(s.pc[r].k, AwaitData)
  {
    var k := s.pc[r].k;
    var b := Mate(p, r, k);
    PairsBothWays(p, r, b, k);
    assert Paired(p, s, r, b, k) && Paired(p, s, b, r, k);
    assert PcOk(p, b, s.pc[b]);
  }

  ghost predicate Loaded(p: Exchange, s: State, r: nat)
    requires PcsOk(p, s) && r < p.n
  {
    var Pc(k, st) := s.pc[r];
    k < |p.slots| && RoleAt(p, r, k).Send? && st != Load ==> s.inb[r] == Leaf(r, k, Mate(p, r, k))
  }

  ghost predicate Arrived(p: Exchange, s: State, r: nat, k: nat)
    requires PcsOk(p, s) && r < p.n
  {
    k < |p.slots| && RoleAt(p, r, k).Send? && Past(s.pc[r], k, Push) && s.pc[Mate(p, r, k)].k <= k ==>
      s.out[Mate(p, r, k)] == Leaf(r, k, Mate(p, r, k))
  }

  ghost predicate Received(p: Exchange, s: State, r: nat, k: nat)
    requires PcsOk(p, s) && r < p.n
  {
    k < |p.slots| && RoleAt(p, r, k).Recv? && s.pc[r].k > k ==>
      k in s.user[r] && s.user[r][k] == Leaf(Mate(p, r, k), k, r)
  }

  ghost predicate Inv(p: Exchange, s: State) {
    && Control(p, s)
    && (forall r :: 0 <= r < p.n ==> Loaded(p, s, r))
    && (forall r: nat, k: nat :: r < p.n ==> Arrived(p, s, r, k) && Received(p, s, r, k))
  }

  lemma ArrivedStep(p: Exchange, s: State, r: nat, t: nat, k: nat)
    requires Inv(p, s) && At(p, s, r) && Enabled(p, s, r) && t < p.n && PcsOk(p, Apply(p, s, r))
    ensures Arrived(p, Apply(p, s, r), t, k)
  {
    assert Arrived(p, s, t, k) && Loaded(p, s, r);
    if k < |p.slots| && s.pc[r].st == Push && RoleAt(p, t, k).Send? {
      SingleWriter(p, s, r);
      var b := Mate(p, t, k);
      PairsBothWays(p, t, b, k);
      assert Paired(p, s, t, b, k);
      if b == Mate(p, r, s.pc[r].k) && Past(s.pc[t], k, Push) && s.pc[b].k <= k { assert k == s.pc[r].k; }
    }
  }

  lemma ReceivedStep(p: Exchange, s: State, r: nat, t: nat, k: nat)
    requires Inv(p, s) && At(p, s, r) && Enabled(p, s, r) && t < p.n && PcsOk(p, Apply(p, s, r))
    ensures Received(p, Apply(p, s, r), t, k)
  {
    assert Received(p, s, t, k);
    if k < |p.slots| && t == r && s.pc[r] == Pc(k, CopyOut) {
      var f := Mate(p, r, k);
      PairsBothWays(p, r, f, k);
      assert Paired(p, s, r, f, k) && Arrived(p, s, f, k);
      assert PcOk(p, f, s.pc[f]);
    }
  }

  lemma LoadedStep(p: Exchange, s: State, r: nat, t: nat)
    requires Inv(p, s) && At(p, s, r) && Enabled(p, s, r) && t < p.n && PcsOk(p, Apply(p, s, r))
    ensures Loaded(p, Apply(p, s, r), t)
  {
    assert Loaded(p, s, t);
  }

  lemma StepInv(p: Exchange, s: State, r: nat)
    requires Inv(p, s) && At(p, s, r) && Enabled(p, s, r)
    ensures Inv(p, Apply(p, s, r))
  {
    var s' := Apply(p, s, r);
    ControlStep(p, s, r);
    forall t | 0 <= t < p.n ensures Loaded(p, s', t) { LoadedStep(p, s, r, t); }
    forall t: nat, k: nat | t < p.n ensures Arrived(p, s', t, k) && Received(p, s', t, k) {
      ArrivedStep(p, s, r, t, k);
      ReceivedStep(p, s, r, t, k);
    }
  }

  // ---- whole runs -----------------------------------------------------------------------------------

  ghost predicate Step(p: Exchange, s: State, s': State) {
    exists r: nat :: At(p, s, r) && Enabled(p, s, r) && s' == Apply(p, s, r)
  }

  ghost predicate Run(p: Exchange, tr: seq<State>)
    requires Valid(p)
  {
    && tr != [] && Init(p, tr[0])
    && (forall i :: 0 <= i < |tr| ==> Shape(p, tr[i]))
    && forall i :: 0 < i < |tr| ==> Step(p, tr[i - 1], tr[i])
  }

  lemma InitInv(p: Exchange, s: State)
    requires Valid(p) && Init(p, s)
    ensures Inv(p, s)
  {
    InitControl(p, s);
  }

  lemma {:induction false} RunInv(p: Exchange, tr: seq<State>)
    requires Valid(p) && Run(p, tr)
    ensures Inv(p, tr[|tr| - 1])
    decreases |tr|
  {
    if |tr| == 1 {
      InitInv(p, tr[0]);
    } else {
      var s := tr[|tr| - 2];
      assert tr[..|tr| - 1][|tr| - 2] == s;
      RunInv(p, tr[..|tr| - 1]);
      assert Step(p, s, tr[|tr| - 1]);
      var r: nat :| At(p, s, r) && Enabled(p, s, r) && tr[|tr| - 1] == Apply(p, s, r);
      StepInv(p, s, r);
    }
  }

  /** A receiver that has left a slot has in it what the sender had for it. */
  lemma RendezvousDelivers(p: Exchange, tr: seq<State>, r: nat, k: nat)
    requires Valid(p) && Run(p, tr) && r < p.n && k < |p.slots| && RoleAt(p, r, k).Recv? && k < tr[|tr| - 1].pc[r].k
    ensures
      var user := tr[|tr| - 1].user[r];
      k in user && user[k] == Leaf(RoleAt(p, r, k).from, k, r)
  {
    RunInv(p, tr);
    assert Received(p, tr[|tr| - 1], r, k);
  }

  /** At any time at most one rank may write a given receive buffer. */
  lemma OneWriter(p: Exchange, tr: seq<State>, r: nat, t: nat)
    requires Valid(p) && Run(p, tr) && At(p, tr[|tr| - 1], r) && At(p, tr[|tr| - 1], t) && r != t
    requires tr[|tr| - 1].pc[r].st == Push && tr[|tr| - 1].pc[t].st == Push
    ensures Mate(p, r, tr[|tr| - 1].pc[r].k) != Mate(p, t, tr[|tr| - 1].pc[t].k)
  {
    var s := tr[|tr| - 1];
    RunInv(p, tr);
    SingleWriter(p, s, r);
    SingleWriter(p, s, t);
    PairsBothWays(p, r, Mate(p, r, s.pc[r].k), s.pc[r].k);
    PairsBothWays(p, t, Mate(p, t, s.pc[t].k), s.pc[t].k);
  }

  // ---- progress --------------------------------------------------------------------------------------

  function Position(pc: Pc): nat {
    6 * pc.k + Rank(pc.st)
  }

  lemma {:induction false} Last(p: Exchange, s: State, k: nat) returns (r: nat)
    requires PcsOk(p, s) && 0 < k <= p.n
    ensures r < k && forall t :: 0 <= t < k ==> Position(s.pc[r]) <= Position(s.pc[t])
    decreases k
  {
    if k == 1 {
      r := 0;
    } else {
      r := Last(p, s, k - 1);
      if Position(s.pc[k - 1]) < Position(s.pc[r]) { r := k - 1; }
    }
  }

  ghost predicate SomeoneCanStep(p: Exchange, s: State) {
    exists r: nat :: At(p, s, r) && Enabled(p, s, r)
  }

  lemma LastIsEnabled(p: Exchange, s: State, r: nat)
    requires Control(p, s) && At(p, s, r) && forall t :: 0 <= t < p.n ==> Position(s.pc[r]) <= Position(s.pc[t])
    ensures Enabled(p, s, r)
  {
    if Awaits(s.pc[r].st) {
      var k := s.pc[r].k;
      WaitExact(p, s, r);
      var b := Mate(p, r, k);
      PairsBothWays(p, r, b, k);
      assert Position(s.pc[r]) <= Position(s.pc[b]) && PcOk(p, b, s.pc[b]);
    }
  }

  /** As long as some rank is not finished, some rank can take a step. */
  lemma RendezvousNeverDeadlocks(p: Exchange, tr: seq<State>, t: nat)
    requires Valid(p) && Run(p, tr) && t < p.n && tr[|tr| - 1].pc[t].k < |p.slots|
    ensures SomeoneCanStep(p, tr[|tr| - 1])
  {
    var s := tr[|tr| - 1];
    RunInv(p, tr);
    var r := Last(p, s, p.n);
    assert Position(s.pc[r]) <= Position(s.pc[t]) && PcOk(p, t, s.pc[t]);
    assert PcOk(p, r, s.pc[r]);
    LastIsEnabled(p, s, r);
    assert At(p, s, r) && Enabled(p, s, r);
  }

  function Total(s: State, k: nat): nat
    requires k <= |s.pc|
  {
    if k == 0 then 0 else Total(s, k - 1) + Position(s.pc[k - 1])
  }

  lemma PositionGrows(p: Exchange, r: nat, pc: Pc)
    requires Valid(p) && r < p.n && pc.k < |p.slots| && PcOk(p, r, pc)
    ensures Position(Advance(p, r, pc)) > Position(pc)
  {
  }

  lemma {:induction false} TotalGrows(s: State, s': State, r: nat, k: nat)
    requires k <= |s.pc| == |s'.pc| && r < |s.pc| && s'.pc == s.pc[r := s'.pc[r]]
      && Position(s'.pc[r]) > Position(s.pc[r])
    ensures Total(s', k) >= Total(s, k) + if r < k then 1 else 0
    decreases k
  {
    if k > 0 { TotalGrows(s, s', r, k - 1); }
  }

  lemma {:induction false} TotalBound(p: Exchange, s: State, k: nat)
    requires PcsOk(p, s) && k <= p.n
    ensures Total(s, k) <= Times(k, 6 * |p.slots|)
    decreases k
  {
    if k > 0 {
      TotalBound(p, s, k - 1);
      assert PcOk(p, k - 1, s.pc[k - 1]);
    }
  }

  lemma {:induction false} RunTotal(p: Exchange, tr: seq<State>)
    requires Valid(p) && Run(p, tr)
    ensures Inv(p, tr[|tr| - 1]) && |tr| <= 1 + Total(tr[|tr| - 1], p.n)
    decreases |tr|
  {
    RunInv(p, tr);
    if |tr| > 1 {
      var before := tr[..|tr| - 1];
      RunTotal(p, before);
      var (s, s') := (before[|tr| - 2], tr[|tr| - 1]);
      assert Step(p, tr[|tr| - 2], tr[|tr| - 1]);
      var r: nat :| At(p, s, r) && Enabled(p, s, r) && s' == Apply(p, s, r);
      PositionGrows(p, r, s.pc[r]);
      TotalGrows(s, s', r, p.n);
    }
  }

  /** Runs are bounded, so a run that cannot be extended has finished everywhere. */
  lemma RendezvousTerminates(p: Exchange, tr: seq<State>)
    requires Valid(p) && Run(p, tr)
    ensures |tr| <= 1 + Times(p.n, 6 * |p.slots|)
  {
    RunTotal(p, tr);
    TotalBound(p, tr[|tr| - 1], p.n);
  }
}
