/** Every run of the ring collectives ends, and ends with everything delivered;
    what is delivered is the plain reduction. */
module RingProgress {
  import opened Arith
  import opened Cycle
  import opened Terms
  import opened RingSchedule
  import opened RingMachine
  import opened RingTheorems

  // ---- no deadlock, no endless run --------------------------------------------

  function Rank(st: Stage, sends: nat): nat {
    match st
    case SetReady => 0
    case AwaitReady => 1
    case Load => 2
    case Push(t) => 3 + 4 * t
    case Flag(t) => 4 + 4 * t
    case Await(t) => 5 + 4 * t
    case Fold(t) => 6 + 4 * t
    case CopyOut => 3 + 4 * sends
  }

  function Start(r: Ring, g: nat): nat
    requires 2 <= r.n && g <= |r.chunks|
  {
    if g == 0 then 0 else Start(r, g - 1) + 4 * Sends(r.n, Kinds(r, g - 1)) + 4
  }

  lemma {:induction false} StartMono(r: Ring, g: nat, h: nat)
    requires 2 <= r.n && g <= h <= |r.chunks|
    ensures Start(r, g) <= Start(r, h)
    decreases h
  {
    if g < h { StartMono(r, g, h - 1); }
  }

  /** How far a card is in the whole program. */
  function Position(r: Ring, pc: Pc): nat
    requires 2 <= r.n && pc.g <= |r.chunks|
  {
    Start(r, pc.g) + if pc.g < |r.chunks| then Rank(pc.st, Sends(r.n, Kinds(r, pc.g))) else 0
  }

  lemma PositionGrows(r: Ring, pc: Pc)
    requires 2 <= r.n && pc.g < |r.chunks| && PcOk(r, pc)
    ensures Position(r, Advance(r, pc)) > Position(r, pc)
  {
  }

  lemma PositionBound(r: Ring, pc: Pc)
    requires 2 <= r.n && pc.g <= |r.chunks| && PcOk(r, pc)
    ensures Position(r, pc) <= Start(r, |r.chunks|)
  {
    StartMono(r, if pc.g < |r.chunks| then pc.g + 1 else pc.g, |r.chunks|);
  }

  /** The card that is least advanced among the first k. */
  lemma {:induction false} Last(r: Ring, s: State, k: nat) returns (c: nat)
    requires 2 <= r.n && PcsOk(r, s) && 0 < k <= r.n
    ensures c < k && forall d :: 0 <= d < k ==> Position(r, s.pc[c]) <= Position(r, s.pc[d])
    decreases k
  {
    if k == 1 {
      c := 0;
    } else {
      c := Last(r, s, k - 1);
      if Position(r, s.pc[k - 1]) < Position(r, s.pc[c]) { c := k - 1; }
    }
  }

  /** A card behind another one has sent no more than it, in every counter. */
  lemma BehindMeansReady(r: Ring, pc: Pc, other: Pc)
    requires 2 <= r.n && pc.g < |r.chunks| && PcOk(r, pc) && other.g <= |r.chunks| && PcOk(r, other)
    requires Position(r, pc) <= Position(r, other)
    ensures pc.st.Await? ==> Base(r, pc.g) + pc.st.t + 1 <= Sent(r, other)
    ensures pc.st.AwaitReady? ==> Shakes(r, pc.g) + 1 <= Shook(r, other)
  {
    if other.g < pc.g {
      StartMono(r, other.g + 1, pc.g);
    } else if pc.g < other.g {
      BaseMono(r, pc.g + 1, other.g);
      ShakesMono(r, pc.g + 1, other.g);
    }
  }

  lemma LastIsEnabled(r: Ring, s: State, c: nat)
    requires 2 <= r.n && Control(r, s) && At(r, s, c)
    requires forall d :: 0 <= d < r.n ==> Position(r, s.pc[c]) <= Position(r, s.pc[d])
    ensures Enabled(r, s, c)
  {
    assert CardOk(r, s, c);
    BehindMeansReady(r, s.pc[c], s.pc[Prev(r.n, c)]);
    BehindMeansReady(r, s.pc[c], s.pc[Next(r.n, c)]);
    BaseMono(r, 0, s.pc[c].g);
    ShakesMono(r, 0, s.pc[c].g);
  }

  predicate CanStep(r: Ring, s: State, c: nat)
    requires 2 <= r.n
  {
    At(r, s, c) && Enabled(r, s, c)
  }

  ghost predicate SomeoneCanStep(r: Ring, s: State)
    requires 2 <= r.n
  {
    exists c :: CanStep(r, s, c)
  }

  /** As long as some card is not finished, some card can take a step. */
  lemma RingNeverDeadlocks(r: Ring, tr: seq<State>, d: nat)
    requires Valid(r) && Run(r, tr) && d < r.n && tr[|tr| - 1].pc[d].g < |r.chunks|
    ensures SomeoneCanStep(r, tr[|tr| - 1])
  {
    var s := tr[|tr| - 1];
    RunInv(r, tr);
    var c := Last(r, s, r.n);
    PositionBound(r, Advance(r, s.pc[d]));
    PositionGrows(r, s.pc[d]);
    LastIsEnabled(r, s, c);
    assert CanStep(r, s, c);
  }

  function Total(r: Ring, s: State, k: nat): nat
    requires 2 <= r.n && PcsOk(r, s) && k <= r.n
  {
    if k == 0 then 0 else Total(r, s, k - 1) + Position(r, s.pc[k - 1])
  }

  lemma {:induction false} TotalGrows(r: Ring, s: State, s': State, c: nat, k: nat)
    requires 2 <= r.n && PcsOk(r, s) && PcsOk(r, s') && At(r, s, c) && k <= r.n
    requires s'.pc == s.pc[c := Advance(r, s.pc[c])]
    ensures Total(r, s', k) >= Total(r, s, k) + if c < k then 1 else 0
    decreases k
  {
    PositionGrows(r, s.pc[c]);
    if k > 0 { TotalGrows(r, s, s', c, k - 1); }
  }

  lemma {:induction false} TotalBound(r: Ring, s: State, k: nat)
    requires 2 <= r.n && PcsOk(r, s) && k <= r.n
    ensures Total(r, s, k) <= k * Start(r, |r.chunks|)
    decreases k
  {
    if k > 0 {
      TotalBound(r, s, k - 1);
      PositionBound(r, s.pc[k - 1]);
      MulStep(k - 1, k, Start(r, |r.chunks|));
    }
  }

  lemma {:induction false} RunTotal(r: Ring, tr: seq<State>)
    requires Valid(r) && Run(r, tr)
    ensures Inv(r, tr[|tr| - 1]) && |tr| <= 1 + Total(r, tr[|tr| - 1], r.n)
    decreases |tr|
  {
    RunInv(r, tr);
    if |tr| > 1 {
      var before := tr[..|tr| - 1];
      RunTotal(r, before);
      var (s, s') := (before[|tr| - 2], tr[|tr| - 1]);
      assert Step(r, tr[|tr| - 2], tr[|tr| - 1]);
      var c: nat :| At(r, s, c) && Enabled(r, s, c) && s' == Apply(r, s, c);
      TotalGrows(r, s, s', c, r.n);
    }
  }

  /** Runs are bounded: a run that cannot be extended has finished everywhere. */
  lemma RingTerminates(r: Ring, tr: seq<State>)
    requires Valid(r) && Run(r, tr)
    ensures |tr| <= 1 + r.n * Start(r, |r.chunks|)
  {
    RunTotal(r, tr);
    TotalBound(r, tr[|tr| - 1], r.n);
  }

  // ---- the delivered fold is the plain reduction -------------------------------

  lemma {:induction false} AccIsReduction<T(!new)>(r: Ring, g: nat, o: nat, k: nat,
                                                   op: (T, T) -> T, input: (nat, nat, nat) -> T, junk: T)
    requires Associative(op) && Commutative(op)
    requires g < |r.chunks| && o < r.n && k < r.n
    ensures
      var xs := Inputs(input, r.n, g, SlotNo(r.n, Kinds(r, g), o));
      Eval(Acc(r, g, o, k), op, input, junk) == Reduce(op, (xs[o..] + xs[..o])[..k + 1])
    decreases k
  {
    var xs := Inputs(input, r.n, g, SlotNo(r.n, Kinds(r, g), o));
    var ys := xs[o..] + xs[..o];
    assert ys[k] == xs[Ahead(r.n, o, k)];
    if k > 0 {
      AccIsReduction(r, g, o, k - 1, op, input, junk);
      assert ys[..k + 1][..k] == ys[..k];
      assert Swaps(op, ys[k], Reduce(op, ys[..k]));
    }
  }

  /** For an associative and commutative operation the complete fold of a slot is
      the reduction of all cards' contributions in card order, whoever started it. */
  lemma FullIsReduction<T(!new)>(r: Ring, g: nat, o: nat, op: (T, T) -> T, input: (nat, nat, nat) -> T, junk: T)
    requires Valid(r) && g < |r.chunks| && o < r.n
    requires Associative(op) && Commutative(op)
    ensures Eval(Full(r, g, o), op, input, junk) ==
            Reduce(op, Inputs(input, r.n, g, SlotNo(r.n, Kinds(r, g), o)))
  {
    var xs := Inputs(input, r.n, g, SlotNo(r.n, Kinds(r, g), o));
    AccIsReduction(r, g, o, r.n - 1, op, input, junk);
    assert (xs[o..] + xs[..o])[..r.n] == xs[o..] + xs[..o];
    ReduceRotate(op, xs, o);
  }
}
