/** The card-level barrier: two counters used for ever, every wait for equality.

    tcclDevSyncCard is an epoch in which every rank of the card adds one and waits.
    A small AllReduce takes two epochs: everyone adds and only rank 0 waits, then
    rank 0 sets the next counter and only the others wait for it. */
module Barrier {
  import opened Arith

  const SYNC_NUM: nat := 2

  datatype Epoch = AllArrive | Gather | Release

  datatype Op = Add(slot: nat) | Set(slot: nat, value: nat) | WaitEq(slot: nat, value: nat)

  /** The value that completes epoch e of `n` ranks. */
  function Target(n: nat, e: nat): nat {
    Times(e / 2 + 1, n)
  }

  /** What rank r does in epoch e. */
  function EpochOps(n: nat, r: nat, e: nat, kind: Epoch): seq<Op> {
    var (slot, value) := (e % 2, Target(n, e));
    match kind
    case AllArrive => [Add(slot), WaitEq(slot, value)]
    case Gather => if r == 0 then [Add(slot), WaitEq(slot, value)] else [Add(slot)]
    case Release => if r == 0 then [Set(slot, value)] else [WaitEq(slot, value)]
  }

  /** A rank's counter of epochs, and the stream it fills. */
  class DevSync {
    const rankNum: nat
    const rankId: nat
    var syncnt: nat
    var stream: seq<Op>

    constructor (rankNum: nat, rankId: nat)
      requires rankId < rankNum
      ensures this.rankNum == rankNum && this.rankId == rankId && syncnt == 0 && stream == []
    {
      this.rankNum, this.rankId, syncnt, stream := rankNum, rankId, 0, [];
    }

    method DevSyncCard()
      modifies this
      ensures syncnt == old(syncnt) + 1
      ensures stream == old(stream) + EpochOps(rankNum, rankId, old(syncnt), AllArrive)
    {
      var count := syncnt;
      syncnt := syncnt + 1;
      var (slot, flag) := (count % SYNC_NUM, count / SYNC_NUM + 1);
      TimesIs(flag, rankNum);
      stream := stream + [Add(slot)];
      stream := stream + [WaitEq(slot, rankNum * flag)];
    }

    /** The synchronisation of tcclSmallSizeAllreduce: its batched write, tcclDevSyncRoot,
        and the release at its end. */
    method SmallAllreduceSync()
      modifies this
      ensures syncnt == old(syncnt) + 2
      ensures stream == old(stream) + EpochOps(rankNum, rankId, old(syncnt), Gather)
                                    + EpochOps(rankNum, rankId, old(syncnt) + 1, Release)
    {
      stream := stream + [Add(syncnt % SYNC_NUM)];
      var count := syncnt;
      syncnt := syncnt + 1;
      var (slot, flag) := (count % SYNC_NUM, count / SYNC_NUM + 1);
      TimesIs(flag, rankNum);
      if rankId == 0 { stream := stream + [WaitEq(slot, rankNum * flag)]; }
      count := syncnt;
      syncnt := syncnt + 1;
      slot, flag := count % SYNC_NUM, count / SYNC_NUM + 1;
      TimesIs(flag, rankNum);
      if rankId == 0 {
        stream := stream + [Set(slot, rankNum * flag)];
      } else {
        stream := stream + [WaitEq(slot, rankNum * flag)];
      }
    }
  }

  // ---- all ranks of a card, in any interleaving ---------------------------------

  /** `n` ranks and the epochs of all calls they make, the same on every rank. */
  datatype Card = Card(n: nat, epochs: seq<Epoch>)

  /** Gather and Release come in pairs. */
  ghost predicate Valid(p: Card) {
    && p.n >= 1
    && (forall e :: 0 <= e < |p.epochs| && p.epochs[e] == Gather ==> e + 1 < |p.epochs| && p.epochs[e + 1] == Release)
    && (forall e :: 0 <= e < |p.epochs| && p.epochs[e] == Release ==> e > 0 && p.epochs[e - 1] == Gather)
  }

  /** A rank is in epoch e, about to execute operation `i` of it. */
  datatype Pos = Pos(e: nat, i: nat)

  datatype State = State(pos: seq<Pos>, slot: seq<nat>)

  predicate Shape(p: Card, s: State) {
    && |s.pos| == p.n && |s.slot| == 2
    && forall r :: 0 <= r < p.n ==> PosOk(p, s.pos[r], r)
  }

  predicate PosOk(p: Card, pos: Pos, r: nat) {
    if pos.e < |p.epochs| then pos.i < |EpochOps(p.n, r, pos.e, p.epochs[pos.e])| else pos == Pos(|p.epochs|, 0)
  }

  predicate Init(p: Card, s: State) {
    && Shape(p, s) && s.slot == [0, 0]
    && forall r :: 0 <= r < p.n ==> s.pos[r] == Pos(0, 0)
  }

  predicate Running(p: Card, s: State, r: nat) {
    Shape(p, s) && r < p.n && s.pos[r].e < |p.epochs|
  }

  function OpAt(p: Card, s: State, r: nat): Op
    requires Running(p, s, r)
  {
    EpochOps(p.n, r, s.pos[r].e, p.epochs[s.pos[r].e])[s.pos[r].i]
  }

  predicate Enabled(p: Card, s: State, r: nat)
    requires Running(p, s, r)
  {
    var op := OpAt(p, s, r);
    op.WaitEq? ==> s.slot[op.slot] == op.value
  }

  function Advance(p: Card, pos: Pos, r: nat): Pos
    requires pos.e < |p.epochs|
  {
    if pos.i + 1 < |EpochOps(p.n, r, pos.e, p.epochs[pos.e])| then Pos(pos.e, pos.i + 1) else Pos(pos.e + 1, 0)
  }

  function Apply(p: Card, s: State, r: nat): State
    requires Running(p, s, r)
  {
    var op := OpAt(p, s, r);
    State(s.pos[r := Advance(p, s.pos[r], r)],
          match op
          case Add(q) => s.slot[q := s.slot[q] + 1]
          case Set(q, v) => s.slot[q := v]
          case WaitEq(_, _) => s.slot)
  }

  // ---- what has happened in an epoch --------------------------------------------

  /** Rank r has executed the operation with which it takes part in epoch e: its add,
      or rank 0's set.  The other ranks take no part in a Release. */
  predicate Acted(p: Card, pos: Pos, r: nat, e: nat) {
    && e < |p.epochs| && (p.epochs[e] == Release ==> r == 0)
    && (pos.e > e || (pos.e == e && pos.i > 0))
  }

  function Count(p: Card, s: State, e: nat, k: nat): nat
    requires k <= |s.pos|
  {
    if k == 0 then 0 else Count(p, s, e, k - 1) + if Acted(p, s.pos[k - 1], k - 1, e) then 1 else 0
  }

  /** What epoch e has put into its counter. */
  function Share(p: Card, s: State, e: nat): nat
    requires |s.pos| == p.n
  {
    if e < |p.epochs| && p.epochs[e] == Release then (if Count(p, s, e, p.n) > 0 then p.n else 0)
    else Count(p, s, e, p.n)
  }

  /** Everyone who has to take part in epoch e has. */
  predicate Done(p: Card, s: State, e: nat)
    requires |s.pos| == p.n
  {
    e < |p.epochs| && Share(p, s, e) == p.n
  }

  lemma {:induction false} CountBound(p: Card, s: State, e: nat, k: nat)
    requires k <= |s.pos|
    ensures Count(p, s, e, k) <= k
    ensures Count(p, s, e, k) == k <==> forall r :: 0 <= r < k ==> Acted(p, s.pos[r], r, e)
    ensures Count(p, s, e, k) == 0 <==> forall r :: 0 <= r < k ==> !Acted(p, s.pos[r], r, e)
    decreases k
  {
    if k > 0 { CountBound(p, s, e, k - 1); }
  }

  lemma {:induction false} CountStep(p: Card, s: State, s': State, r: nat, e: nat, k: nat)
    requires k <= |s.pos| == |s'.pos| && r < |s.pos| && s'.pos == s.pos[r := s'.pos[r]]
    requires Acted(p, s.pos[r], r, e) ==> Acted(p, s'.pos[r], r, e)
    ensures Count(p, s', e, k) == Count(p, s, e, k) +
              if r < k && Acted(p, s'.pos[r], r, e) && !Acted(p, s.pos[r], r, e) then 1 else 0
    decreases k
  {
    if k > 0 { CountStep(p, s, s', r, e, k - 1); }
  }

  /** Done, spelled out. */
  lemma DoneMeans(p: Card, s: State, e: nat)
    requires Valid(p) && Shape(p, s) && e < |p.epochs|
    ensures Done(p, s, e) <==>
      if p.epochs[e] == Release then s.pos[0].e > e
      else forall r :: 0 <= r < p.n ==> Acted(p, s.pos[r], r, e)
  {
    CountBound(p, s, e, p.n);
    if p.epochs[e] == Release {
      assert PosOk(p, s.pos[0], 0);
      assert Acted(p, s.pos[0], 0, e) <==> s.pos[0].e > e;
    }
  }

  // ---- invariant --------------------------------------------------------------------

  predicate Waits(kind: Epoch, r: nat) {
    match kind case AllArrive => true case Gather => r == 0 case Release => r != 0
  }

  /** A rank that has waited for epoch e left it only when the epoch was done. */
  ghost predicate PassedOk(p: Card, s: State, r: nat, e: nat)
    requires Shape(p, s) && r < p.n
  {
    e < |p.epochs| && e < s.pos[r].e && Waits(p.epochs[e], r) ==> Done(p, s, e)
  }

  ghost predicate Begun(p: Card, s: State, e: nat)
    requires Shape(p, s)
  {
    (e < 2 || Done(p, s, e - 2)) && Share(p, s, e + 2) == 0
  }

  /** The counter of the latest epoch that has begun shows all earlier epochs in full. */
  ghost predicate Level(p: Card, s: State, e: nat)
    requires Shape(p, s)
  {
    Begun(p, s, e) ==> s.slot[e % 2] == Times(e / 2, p.n) + Share(p, s, e)
  }

  ghost predicate Inv(p: Card, s: State) {
    && Shape(p, s)
    && (forall r: nat, e: nat :: r < p.n ==> PassedOk(p, s, r, e))
    && (forall e: nat :: Level(p, s, e))
  }

  lemma InitInv(p: Card, s: State)
    requires Valid(p) && Init(p, s)
    ensures Inv(p, s)
  {
    forall e: nat ensures Level(p, s, e) {
      CountBound(p, s, e, p.n);
      if e >= 2 { CountBound(p, s, e - 2, p.n); }
    }
  }

  lemma ActedNeedsDone(p: Card, s: State, r: nat, e: nat)
    requires Valid(p) && Inv(p, s) && r < p.n && Acted(p, s.pos[r], r, e) && e > 0
    ensures Done(p, s, e - 1) && Acted(p, s.pos[0], 0, e - 1)
  {
    assert PassedOk(p, s, r, e - 1);
    assert PosOk(p, s.pos[r], r);
    DoneMeans(p, s, e - 1);
  }

  /** Taking part in an epoch means that every earlier epoch is done. */
  lemma {:induction false} AllEarlierDone(p: Card, s: State, r: nat, e: nat, d: nat)
    requires Valid(p) && Inv(p, s) && r < p.n && Acted(p, s.pos[r], r, e) && d < e
    ensures Done(p, s, d)
    decreases e
  {
    ActedNeedsDone(p, s, r, e);
    if d < e - 1 { AllEarlierDone(p, s, 0, e - 1, d); }
  }

  /** Nobody uses a counter again while a rank is still in the epoch before. */
  lemma NobodyBeyond(p: Card, s: State, r: nat)
    requires Valid(p) && Inv(p, s) && Running(p, s, r)
    ensures Share(p, s, s.pos[r].e + 2) == 0
  {
    var e := s.pos[r].e;
    CountBound(p, s, e + 2, p.n);
    if Share(p, s, e + 2) != 0 {
      var t: nat :| t < p.n && Acted(p, s.pos[t], t, e + 2);
      ActedNeedsDone(p, s, t, e + 2);
      DoneMeans(p, s, e + 1);
      if p.epochs[e + 1] == Release {
        AllEarlierDone(p, s, t, e + 2, e);
        DoneMeans(p, s, e);
      }
      assert false;
    }
  }

  lemma HasBegun(p: Card, s: State, r: nat)
    requires Valid(p) && Inv(p, s) && Running(p, s, r)
    ensures Begun(p, s, s.pos[r].e)
  {
    var e := s.pos[r].e;
    NobodyBeyond(p, s, r);
    if e >= 2 {
      if p.epochs[e - 1] == Release && r != 0 {
        assert PassedOk(p, s, r, e - 1);
        DoneMeans(p, s, e - 1);
        AllEarlierDone(p, s, 0, e - 1, e - 2);
      } else {
        AllEarlierDone(p, s, r, e - 1, e - 2);
      }
    }
  }

  /** The equality a rank waits for holds exactly when its epoch is done: it is not
      released early, and the value is still there when it looks. */
  lemma WaitExact(p: Card, s: State, r: nat)
    requires Valid(p) && Inv(p, s) && Running(p, s, r) && OpAt(p, s, r).WaitEq?
    ensures Enabled(p, s, r) <==> Done(p, s, s.pos[r].e)
  {
    HasBegun(p, s, r);
    assert Level(p, s, s.pos[r].e);
  }

  // ---- preservation -----------------------------------------------------------------

  /** A step changes what one rank has acted in: its own epoch, by an add or a set. */
  lemma ShareStep(p: Card, s: State, r: nat, e: nat)
    requires Valid(p) && Inv(p, s) && Running(p, s, r)
    ensures
      var (s', op) := (Apply(p, s, r), OpAt(p, s, r));
      && |s'.pos| == p.n
      && Share(p, s', e) == Share(p, s, e) +
           (if e == s.pos[r].e && op.Add? then 1 else if e == s.pos[r].e && op.Set? then p.n else 0)
  {
    CountStep(p, s, Apply(p, s, r), r, e, p.n);
    CountBound(p, s, e, p.n);
    CountBound(p, Apply(p, s, r), e, p.n);
    if OpAt(p, s, r).Set? { DoneMeans(p, s, s.pos[r].e); }
  }

  lemma ShareBound(p: Card, s: State, e: nat)
    requires Shape(p, s)
    ensures Share(p, s, e) <= p.n
  {
    CountBound(p, s, e, p.n);
  }

  lemma StepInv(p: Card, s: State, r: nat)
    requires Valid(p) && Inv(p, s) && Running(p, s, r) && Enabled(p, s, r)
    ensures Inv(p, Apply(p, s, r))
  {
    var s' := Apply(p, s, r);
    assert Shape(p, s');
    forall t: nat, e: nat | t < p.n ensures PassedOk(p, s', t, e) {
      assert PassedOk(p, s, t, e);
      ShareStep(p, s, r, e);
      ShareBound(p, s', e);
      if t == r && e == s.pos[r].e && OpAt(p, s, r).WaitEq? { WaitExact(p, s, r); }
    }
    forall e: nat ensures Level(p, s', e) {
      LevelStep(p, s, r, e);
    }
  }

  /** The counters of epoch e and of a rank's own epoch f can only be the same counter,
      with both begun, when e is f or the next use of it. */
  lemma BegunTogether(p: Card, s: State, f: nat, e: nat)
    requires Valid(p) && Inv(p, s) && Begun(p, s, f) && e % 2 == f % 2
    requires e < 2 || Done(p, s, e - 2)
    requires e + 2 == f || Share(p, s, e + 2) == 0
    ensures e + 2 == f || e == f || e == f + 2
  {
    if e + 2 < f {
      DoneBackTo(p, s, f - 2, e + 2);
      assert false;
    } else if e > f + 2 {
      DoneBackTo(p, s, e - 2, f + 2);
      assert false;
    }
  }

  lemma DoneBackTo(p: Card, s: State, e: nat, d: nat)
    requires Valid(p) && Inv(p, s) && Done(p, s, e) && d <= e
    ensures Done(p, s, d)
  {
    DoneMeans(p, s, e);
    if d < e { AllEarlierDone(p, s, 0, e, d); }
  }

  lemma LevelStep(p: Card, s: State, r: nat, e: nat)
    requires Valid(p) && Inv(p, s) && Running(p, s, r) && Enabled(p, s, r) && Shape(p, Apply(p, s, r))
    ensures Level(p, Apply(p, s, r), e)
  {
    var s' := Apply(p, s, r);
    var f := s.pos[r].e;
    HasBegun(p, s, r);
    assert Level(p, s, f) && Level(p, s, e);
    ShareStep(p, s, r, e);
    ShareStep(p, s, r, e + 2);
    ShareBound(p, s', e);
    ShareBound(p, s, f);
    if e >= 2 {
      ShareStep(p, s, r, e - 2);
      ShareBound(p, s', e - 2);
    }
    if Begun(p, s', e) && e % 2 == f % 2 && !OpAt(p, s, r).WaitEq? {
      LevelSame(p, s, r, e);
    }
  }

  /** An add or a set on the counter of epoch e. */
  lemma LevelSame(p: Card, s: State, r: nat, e: nat)
    requires Valid(p) && Inv(p, s) && Running(p, s, r) && Enabled(p, s, r) && Shape(p, Apply(p, s, r))
    requires !OpAt(p, s, r).WaitEq? && e % 2 == s.pos[r].e % 2 && Begun(p, Apply(p, s, r), e)
    ensures Level(p, Apply(p, s, r), e)
  {
    var s' := Apply(p, s, r);
    var f := s.pos[r].e;
    HasBegun(p, s, r);
    assert Level(p, s, f);
    ShareStep(p, s, r, e);
    ShareStep(p, s, r, f);
    ShareStep(p, s, r, e + 2);
    ShareBound(p, s', f);
    if e == f {
    } else if e == f + 2 {
      assert (f + 2) / 2 == f / 2 + 1;
      assert Share(p, s', f) == p.n;
    } else {
      if e >= 2 {
        ShareStep(p, s, r, e - 2);
        ShareBound(p, s, e - 2);
      }
      BegunTogether(p, s, f, e);
      assert false;
    }
  }
}
