/** The direct AllReduce is correct although nobody waits for empty slices: two halves
    suffice, an inBuff slice is overwritten by a peer only after it was pushed to that
    peer, and all cards get the same reduction, whatever the operation is. */
module DirectTheorems {
  import opened Arith
  import opened Cycle
  import opened Terms
  import opened DirectAllReduce
  import opened DirectMachine

  function Leaves(k: nat, j: nat, n: nat): (xs: seq<Term>)
    ensures |xs| == n && forall i :: 0 <= i < n ==> xs[i] == Leaf(i, k, j)
  {
    seq(n, i requires 0 <= i < n => Leaf(i, k, j))
  }

  /** All cards' contributions to slice j of chunk k, in card order. */
  function Full(p: Mesh, k: nat, j: nat): Term
    requires p.n > 0
  {
    FoldTerms(Leaves(k, j, p.n))
  }

  predicate Has(m: Half, k: nat, j: nat, v: Term) {
    m.chunk == k && j in m.slots && m.slots[j] == v
  }

  /** Slice j in card c's inBuff: c's own contribution until it, or card j, has put the
      result there. */
  ghost predicate InOk(p: Mesh, s: State, c: nat, j: nat)
    requires PcsOk(p, s) && c < p.n && j < p.n
  {
    var k := s.pc[c].k;
    k < |p.chunks| && Past(p, s.pc[c], k, Load) && Count(p, k, j) > 0 ==>
      Has(s.inb[c][HalfOf(p, k)], k, j,
          if (if j == c then Past(p, s.pc[c], k, Fold) else Pushed2(p, s.pc[j], j, c, k)) then Full(p, k, j)
              else Leaf(c, k, j))
  }

  /** What c pushed to d for reduction is there until d has reduced it. */
  ghost predicate OutOk(p: Mesh, s: State, c: nat, d: nat, k: nat)
    requires PcsOk(p, s) && c < p.n && d < p.n
  {
    k < |p.chunks| && c != d && Pushed1(p, s.pc[c], c, d, k) && !Past(p, s.pc[d], k, Fold) && Count(p, k, d) > 0 ==>
      Has(s.out[d][HalfOf(p, k)], k, c, Leaf(c, k, d))
  }

  ghost predicate UserOk(p: Mesh, s: State, c: nat, k: nat, j: nat)
    requires PcsOk(p, s) && c < p.n && j < p.n
  {
    k < |p.chunks| && s.pc[c].k > k && Count(p, k, j) > 0 ==> (k, j) in s.user[c] && s.user[c][(k, j)] == Full(p, k, j)
  }

  ghost predicate Inv(p: Mesh, s: State) {
    && Control(p, s)
    && (forall c: nat, j: nat :: c < p.n && j < p.n ==> InOk(p, s, c, j))
    && (forall c: nat, d: nat, k: nat :: c < p.n && d < p.n ==> OutOk(p, s, c, d, k))
    && (forall c: nat, k: nat, j: nat :: c < p.n && j < p.n ==> UserOk(p, s, c, k, j))
  }

  // ---- who may write when -------------------------------------------------------------------

  /** Card j writes its result into card c's inBuff only when c works on the same chunk, has
      pushed this slice to j, and still waits for the result. */
  lemma ResultWanted(p: Mesh, s: State, j: nat, c: nat)
    requires Control(p, s) && At(p, s, j) && c < p.n && c != j && Count(p, s.pc[j].k, j) > 0
    requires s.pc[j].st == Push2(Place(p.n, j, c)) || s.pc[j].st == Flag2(Place(p.n, j, c))
    ensures s.pc[c].k == s.pc[j].k && Sent1(p, s.pc[c], c, j, s.pc[j].k)
    ensures !Past(p, s.pc[c], s.pc[j].k, Await2(Place(p.n, c, j)))
  {
    var k := s.pc[j].k;
    assert WaitOk(p, s, j, c, k) && WaitOk(p, s, c, j, k);
  }

  /** No result is in card c's inBuff before c has pushed the slice to be reduced. */
  lemma NotYetReduced(p: Mesh, s: State, c: nat, j: nat, k: nat)
    requires Control(p, s) && c < p.n && j < p.n && c != j && k < |p.chunks| && Count(p, k, j) > 0
      && !Sent1(p, s.pc[c], c, j, k)
    ensures !Pushed2(p, s.pc[j], j, c, k)
  {
    assert WaitOk(p, s, j, c, k);
    assert PcOk(p, s.pc[j]);
  }

  /** Card a pushes into a half of d's outBuff only when d needs nothing there of another chunk. */
  lemma SameChunk(p: Mesh, s: State, a: nat, d: nat, c: nat, k: nat)
    requires Control(p, s) && At(p, s, a) && s.pc[a].st.Push1? && d < p.n && c < p.n && k < |p.chunks|
    requires Entered(p, s.pc[c], k) && !Past(p, s.pc[d], k, Fold)
    ensures k == s.pc[a].k
  {
    var n := s.pc[a].k;
    if k < n { OneBehind(p, s, a, d, n); }
    if k > n { OneBehind(p, s, c, a, k); }
  }

  // ---- preservation ---------------------------------------------------------------------------

  lemma OutStep(p: Mesh, s: State, a: nat, c: nat, d: nat, k: nat)
    requires Inv(p, s) && At(p, s, a) && Enabled(p, s, a) && c < p.n && d < p.n && PcsOk(p, Apply(p, s, a))
    ensures OutOk(p, Apply(p, s, a), c, d, k)
  {
    assert OutOk(p, s, c, d, k);
    if k < |p.chunks| && c != d {
      PastStep(p, s.pc[a], k, Push1(Place(p.n, c, d)));
      PastStep(p, s.pc[a], k, Fold);
      if s.pc[a].st.Push1? && Peer(p.n, a, s.pc[a].st.i) == d { PushStep(p, s, a, c, d, k); }
    }
  }

  lemma PushStep(p: Mesh, s: State, a: nat, c: nat, d: nat, k: nat)
    requires Inv(p, s) && At(p, s, a) && Enabled(p, s, a) && c < p.n && d < p.n && PcsOk(p, Apply(p, s, a))
    requires s.pc[a].st.Push1? && Peer(p.n, a, s.pc[a].st.i) == d && k < |p.chunks| && c != d
    ensures OutOk(p, Apply(p, s, a), c, d, k)
  {
    assert OutOk(p, s, c, d, k) && InOk(p, s, a, d);
    PastStep(p, s.pc[a], k, Push1(Place(p.n, c, d)));
    if Count(p, s.pc[a].k, d) > 0 { NotYetReduced(p, s, a, d, s.pc[a].k); }
    if Pushed1(p, s.pc[c], c, d, k) && !Past(p, s.pc[d], k, Fold) { SameChunk(p, s, a, d, c, k); }
  }

  lemma InStep(p: Mesh, s: State, a: nat, c: nat, j: nat)
    requires Inv(p, s) && At(p, s, a) && Enabled(p, s, a) && c < p.n && j < p.n && PcsOk(p, Apply(p, s, a))
    ensures InOk(p, Apply(p, s, a), c, j)
  {
    assert InOk(p, s, c, j);
    if a == c { InOwn(p, s, c, j); } else { InOther(p, s, a, c, j); }
  }

  lemma InOwn(p: Mesh, s: State, c: nat, j: nat)
    requires Inv(p, s) && At(p, s, c) && Enabled(p, s, c) && j < p.n && PcsOk(p, Apply(p, s, c))
    ensures InOk(p, Apply(p, s, c), c, j)
  {
    var Pc(k, st) := s.pc[c];
    assert InOk(p, s, c, j);
    if st == CopyOut {
      assert !Past(p, Advance(p, s.pc[c]), k + 1, Load);
    } else if st == Load {
      if j != c && Count(p, k, j) > 0 { NotYetReduced(p, s, c, j, k); }
    } else if st == Fold {
      if Count(p, k, c) > 0 { FoldIs(p, s, c); }
    } else {
      OwnKeeps(p, s, c, j);
    }
  }

  lemma OwnKeeps(p: Mesh, s: State, c: nat, j: nat)
    requires Inv(p, s) && At(p, s, c) && Enabled(p, s, c) && j < p.n && PcsOk(p, Apply(p, s, c))
    requires s.pc[c].st != CopyOut && s.pc[c].st != Load && s.pc[c].st != Fold
    ensures InOk(p, Apply(p, s, c), c, j)
  {
    assert InOk(p, s, c, j);
    PastStep(p, s.pc[c], s.pc[c].k, Load);
    PastStep(p, s.pc[c], s.pc[c].k, Fold);
  }

  /** What card c reduces is everyone's contribution. */
  lemma FoldIs(p: Mesh, s: State, c: nat)
    requires Inv(p, s) && At(p, s, c) && s.pc[c].st == Fold && Count(p, s.pc[c].k, c) > 0
    ensures FoldTerms(Slices(p, s, c, s.pc[c].k, p.n)) == Full(p, s.pc[c].k, c)
  {
    var k := s.pc[c].k;
    forall i | 0 <= i < p.n ensures Slices(p, s, c, k, p.n)[i] == Leaf(i, k, c) {
      if i == c {
        assert InOk(p, s, c, c);
      } else {
        assert WaitOk(p, s, c, i, k) && OutOk(p, s, i, c, k);
      }
    }
    assert Slices(p, s, c, k, p.n) == Leaves(k, c, p.n);
  }

  lemma InOther(p: Mesh, s: State, a: nat, c: nat, j: nat)
    requires Inv(p, s) && At(p, s, a) && Enabled(p, s, a) && c < p.n && j < p.n && a != c && PcsOk(p, Apply(p, s, a))
    ensures InOk(p, Apply(p, s, a), c, j)
  {
    assert InOk(p, s, c, j) && InOk(p, s, a, a);
    var k := s.pc[c].k;
    PeerPlace(p.n, a, c);
    if k < |p.chunks| { PastStep(p, s.pc[a], k, Push2(Place(p.n, a, c))); }
    if s.pc[a].st == Push2(Place(p.n, a, c)) && Count(p, s.pc[a].k, a) > 0 { ResultWanted(p, s, a, c); }
  }

  /** What a card copies out is reduced. */
  lemma CopiesResult(p: Mesh, s: State, c: nat, j: nat)
    requires Inv(p, s) && At(p, s, c) && s.pc[c].st == CopyOut && j < p.n && Count(p, s.pc[c].k, j) > 0
    ensures Read(s.inb[c][HalfOf(p, s.pc[c].k)], s.pc[c].k, j) == Full(p, s.pc[c].k, j)
  {
    assert InOk(p, s, c, j) && WaitOk(p, s, c, j, s.pc[c].k);
    assert PcOk(p, s.pc[j]);
  }

  lemma UserStep(p: Mesh, s: State, a: nat, c: nat, k: nat, j: nat)
    requires Inv(p, s) && At(p, s, a) && Enabled(p, s, a) && c < p.n && j < p.n && PcsOk(p, Apply(p, s, a))
    ensures UserOk(p, Apply(p, s, a), c, k, j)
  {
    assert UserOk(p, s, c, k, j);
    if k < |p.chunks| && Count(p, k, j) > 0 && a == c && s.pc[c] == Pc(k, CopyOut) {
      CopiesResult(p, s, c, j);
      assert (k, j) in AllSlots(k, s.inb[c][HalfOf(p, k)], p.n);
    }
  }

  lemma StepInv(p: Mesh, s: State, a: nat)
    requires Inv(p, s) && At(p, s, a) && Enabled(p, s, a)
    ensures Inv(p, Apply(p, s, a))
  {
    var s' := Apply(p, s, a);
    ControlStep(p, s, a);
    forall c: nat, j: nat | c < p.n && j < p.n ensures InOk(p, s', c, j) { InStep(p, s, a, c, j); }
    forall c: nat, d: nat, k: nat | c < p.n && d < p.n ensures OutOk(p, s', c, d, k) { OutStep(p, s, a, c, d, k); }
    forall c: nat, k: nat, j: nat | c < p.n && j < p.n ensures UserOk(p, s', c, k, j) { UserStep(p, s, a, c, k, j); }
  }

  // ---- whole runs -------------------------------------------------------------------------------

  ghost predicate Step(p: Mesh, s: State, s': State) {
    exists c: nat :: At(p, s, c) && Enabled(p, s, c) && s' == Apply(p, s, c)
  }

  ghost predicate Run(p: Mesh, tr: seq<State>) {
    && tr != [] && Init(p, tr[0])
    && (forall i :: 0 <= i < |tr| ==> Shape(p, tr[i]))
    && forall i :: 0 < i < |tr| ==> Step(p, tr[i - 1], tr[i])
  }

  lemma InitInv(p: Mesh, s: State)
    requires Valid(p) && Init(p, s)
    ensures Inv(p, s)
  {
    InitControl(p, s);
    assert forall c :: 0 <= c < p.n ==> s.pc[c] == First(p, 0);
  }

  lemma {:induction false} RunInv(p: Mesh, tr: seq<State>)
    requires Valid(p) && Run(p, tr)
    ensures Inv(p, tr[|tr| - 1])
    decreases |tr|
  {
    if |tr| == 1 {
      InitInv(p, tr[0]);
    } else {
      var s := tr[|tr| - 2];
      assert tr[..|tr| - 1][|tr| - 2] == s;
      RunInv(p, tr[..|tr| - 1]);
      assert Step(p, s, tr[|tr| - 1]);
      var c: nat :| At(p, s, c) && Enabled(p, s, c) && tr[|tr| - 1] == Apply(p, s, c);
      StepInv(p, s, c);
    }
  }

  /** Every card that has left a chunk has given its users the complete reduction of every
      slice, the same expression on all cards. */
  lemma DirectDelivers(p: Mesh, tr: seq<State>, c: nat, k: nat, j: nat)
    requires Valid(p) && Run(p, tr) && c < p.n && j < p.n && k < |p.chunks| && k < tr[|tr| - 1].pc[c].k
      && Count(p, k, j) > 0
    ensures
      var user := tr[|tr| - 1].user[c];
      (k, j) in user && user[(k, j)] == Full(p, k, j)
  {
    RunInv(p, tr);
    assert UserOk(p, tr[|tr| - 1], c, k, j);
  }

  /** A push of a result overwrites a slice that its owner has already pushed, does not copy
      out yet, and works on in the same chunk. */
  lemma ResultRaceFree(p: Mesh, tr: seq<State>, j: nat, c: nat)
    requires Valid(p) && Run(p, tr) && At(p, tr[|tr| - 1], j) && c < p.n && c != j
    requires tr[|tr| - 1].pc[j].st == Push2(Place(p.n, j, c)) && Count(p, tr[|tr| - 1].pc[j].k, j) > 0
    ensures
      var (pj, pc) := (tr[|tr| - 1].pc[j], tr[|tr| - 1].pc[c]);
      pc.k == pj.k && Sent1(p, pc, c, j, pj.k) && pc.st != CopyOut && pc.st != Load
  {
    RunInv(p, tr);
    ResultWanted(p, tr[|tr| - 1], j, c);
    assert PcOk(p, tr[|tr| - 1].pc[c]);
  }

  /** While a card pushes a slice for reduction, its receiver is not reducing slices. */
  lemma SliceRaceFree(p: Mesh, tr: seq<State>, c: nat, d: nat)
    requires Valid(p) && Run(p, tr) && At(p, tr[|tr| - 1], c) && At(p, tr[|tr| - 1], d) && c != d
    requires tr[|tr| - 1].pc[c].st == Push1(Place(p.n, c, d)) && Count(p, tr[|tr| - 1].pc[d].k, d) > 0
    ensures tr[|tr| - 1].pc[d].st != Fold
  {
    var s := tr[|tr| - 1];
    RunInv(p, tr);
    assert WaitOk(p, s, d, c, s.pc[d].k);
    if s.pc[d].st == Fold { SameChunk(p, s, c, d, d, s.pc[d].k); }
  }

  // ---- progress -----------------------------------------------------------------------------------

  function Position(p: Mesh, pc: Pc): nat {
    Times(pc.k, 8 * p.n + 1) + Rank(p.n, pc.st)
  }

  lemma RankBound(p: Mesh, pc: Pc)
    requires Valid(p) && pc.k < |p.chunks| && PcOk(p, pc)
    ensures Rank(p.n, pc.st) <= 8 * p.n
  {
  }

  /** A card no further than another has sent no more than it. */
  lemma Behind(p: Mesh, pc: Pc, other: Pc)
    requires Valid(p) && pc.k < |p.chunks| && PcOk(p, pc) && other.k <= |p.chunks| && PcOk(p, other)
    requires Position(p, pc) <= Position(p, other)
    ensures pc.k < other.k || (pc.k == other.k && Rank(p.n, pc.st) <= Rank(p.n, other.st))
  {
    if other.k < pc.k {
      TimesStep(other.k, pc.k, 8 * p.n + 1);
      RankBound(p, other);
    }
  }

  lemma {:induction false} Last(p: Mesh, s: State, k: nat) returns (c: nat)
    requires PcsOk(p, s) && 0 < k <= p.n
    ensures c < k && forall d :: 0 <= d < k ==> Position(p, s.pc[c]) <= Position(p, s.pc[d])
    decreases k
  {
    if k == 1 {
      c := 0;
    } else {
      c := Last(p, s, k - 1);
      if Position(p, s.pc[k - 1]) < Position(p, s.pc[c]) { c := k - 1; }
    }
  }

  ghost predicate CanStep(p: Mesh, s: State, c: nat) {
    At(p, s, c) && Enabled(p, s, c)
  }

  ghost predicate SomeoneCanStep(p: Mesh, s: State) {
    exists c: nat :: CanStep(p, s, c)
  }

  lemma LastIsEnabled(p: Mesh, s: State, c: nat)
    requires Control(p, s) && At(p, s, c) && forall d :: 0 <= d < p.n ==> Position(p, s.pc[c]) <= Position(p, s.pc[d])
    ensures Enabled(p, s, c)
  {
    var Pc(k, st) := s.pc[c];
    match st
    case AwaitShake(i) => ShakeIsThere(p, s, c, i);
    case Await1(i) =>
      var d := Peer(p.n, c, i);
      Behind(p, s.pc[c], s.pc[d]);
      FlagMeans(p, s, c, d, k);
    case Await2(i) =>
      var d := Peer(p.n, c, i);
      Behind(p, s.pc[c], s.pc[d]);
      FlagMeans(p, s, c, d, k);
    case _ =>
  }

  lemma ShakeIsThere(p: Mesh, s: State, c: nat, i: nat)
    requires Control(p, s) && At(p, s, c) && s.pc[c].st == AwaitShake(i)
    requires Position(p, s.pc[c]) <= Position(p, s.pc[Next(p.n, c)])
    ensures Enabled(p, s, c)
  {
    var (k, d) := (s.pc[c].k, Next(p.n, c));
    Behind(p, s.pc[c], s.pc[d]);
    assert ShakeOk(p, s, c) && PcOk(p, s.pc[d]);
    ShakeReached(p, s.pc[d], k, i);
    ShakesMono(p, 0, k);
  }

  lemma ShakeReached(p: Mesh, pc: Pc, k: nat, i: nat)
    requires Valid(p) && k < |p.chunks| && p.chunks[k].opens && 0 < i < p.n && pc.k <= |p.chunks| && PcOk(p, pc)
    requires pc.k > k || (pc.k == k && Rank(p.n, pc.st) >= 2 * i + 1)
    ensures Shook(p, pc) >= Shakes(p, k) + i
  {
    if pc.k > k { ShakesMono(p, k + 1, pc.k); }
  }

  /** As long as some card is not finished, some card can take a step. */
  lemma DirectNeverDeadlocks(p: Mesh, tr: seq<State>, d: nat)
    requires Valid(p) && Run(p, tr) && d < p.n && tr[|tr| - 1].pc[d].k < |p.chunks|
    ensures SomeoneCanStep(p, tr[|tr| - 1])
  {
    var s := tr[|tr| - 1];
    RunInv(p, tr);
    var c := Last(p, s, p.n);
    assert PcOk(p, s.pc[c]) && PcOk(p, s.pc[d]);
    RankBound(p, s.pc[d]);
    TimesStep(s.pc[d].k, |p.chunks|, 8 * p.n + 1);
    LastIsEnabled(p, s, c);
    assert CanStep(p, s, c);
  }

  function Total(p: Mesh, s: State, k: nat): nat
    requires k <= |s.pc|
  {
    if k == 0 then 0 else Total(p, s, k - 1) + Position(p, s.pc[k - 1])
  }

  lemma PositionGrows(p: Mesh, pc: Pc)
    requires Valid(p) && pc.k < |p.chunks| && PcOk(p, pc)
    ensures Position(p, Advance(p, pc)) > Position(p, pc)
  {
    if pc.st != CopyOut { RankGrows(p, pc); }
  }

  lemma {:induction false} TotalGrows(p: Mesh, s: State, s': State, c: nat, k: nat)
    requires k <= |s.pc| == |s'.pc| && c < |s.pc| && s'.pc == s.pc[c := s'.pc[c]]
      && Position(p, s'.pc[c]) > Position(p, s.pc[c])
    ensures Total(p, s', k) >= Total(p, s, k) + if c < k then 1 else 0
    decreases k
  {
    if k > 0 { TotalGrows(p, s, s', c, k - 1); }
  }

  lemma PositionBound(p: Mesh, pc: Pc)
    requires Valid(p) && pc.k <= |p.chunks| && PcOk(p, pc)
    ensures Position(p, pc) <= Times(|p.chunks|, 8 * p.n + 1) + 2 * p.n
  {
    if pc.k < |p.chunks| {
      TimesStep(pc.k, |p.chunks|, 8 * p.n + 1);
      RankBound(p, pc);
    }
  }

  lemma {:induction false} TotalBound(p: Mesh, s: State, k: nat)
    requires PcsOk(p, s) && k <= p.n
    ensures Total(p, s, k) <= Times(k, Times(|p.chunks|, 8 * p.n + 1) + 2 * p.n)
    decreases k
  {
    if k > 0 {
      TotalBound(p, s, k - 1);
      assert PcOk(p, s.pc[k - 1]);
      PositionBound(p, s.pc[k - 1]);
    }
  }

  lemma {:induction false} RunTotal(p: Mesh, tr: seq<State>)
    requires Valid(p) && Run(p, tr)
    ensures Inv(p, tr[|tr| - 1]) && |tr| <= 1 + Total(p, tr[|tr| - 1], p.n)
    decreases |tr|
  {
    RunInv(p, tr);
    if |tr| > 1 {
      var before := tr[..|tr| - 1];
      RunTotal(p, before);
      var (s, s') := (before[|tr| - 2], tr[|tr| - 1]);
      assert Step(p, tr[|tr| - 2], tr[|tr| - 1]);
      var c: nat :| At(p, s, c) && Enabled(p, s, c) && s' == Apply(p, s, c);
      PositionGrows(p, s.pc[c]);
      TotalGrows(p, s, s', c, p.n);
    }
  }

  /** Runs are bounded, so a run that cannot be extended has finished everywhere. */
  lemma DirectTerminates(p: Mesh, tr: seq<State>)
    requires Valid(p) && Run(p, tr)
    ensures |tr| <= 1 + Times(p.n, Times(|p.chunks|, 8 * p.n + 1) + 2 * p.n)
  {
    RunTotal(p, tr);
    TotalBound(p, tr[|tr| - 1], p.n);
  }

  // ---- the plain reduction ------------------------------------------------------------------------

  /** What every card delivers is the reduction in card order, without any law for op. */
  lemma {:induction false} FullIsReduction<T>(k: nat, j: nat, n: nat, op: (T, T) -> T, input: (nat, nat, nat) -> T,
      junk: T)
    requires n > 0
    ensures Eval(FoldTerms(Leaves(k, j, n)), op, input, junk) == Reduce(op, Inputs(input, n, k, j))
    decreases n
  {
    if n > 1 {
      FullIsReduction(k, j, n - 1, op, input, junk);
      assert Leaves(k, j, n)[..n - 1] == Leaves(k, j, n - 1);
      assert Inputs(input, n, k, j)[..n - 1] == Inputs(input, n - 1, k, j);
    }
  }
}
