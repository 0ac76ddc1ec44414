/** The recursive-doubling AllReduce over whole runs: no flag of a later round ends an
    earlier wait, two buffer halves suffice for any number of calls, every card gets the
    result its schedule says, and all schedules compute the plain reduction. */
module DoublingTheorems {
  import opened Arith
  import opened Hypercube
  import opened Terms
  import opened Doubling
  import opened DoublingMachine
  import opened DoublingData

  ghost predicate Step(p: Cube, s: State, s': State)
    requires p.lg > 0
  {
    exists c: nat :: At(p, s, c) && Enabled(p, s, c) && s' == Apply(p, s, c)
  }

  ghost predicate Run(p: Cube, tr: seq<State>)
    requires p.lg > 0
  {
    && tr != [] && Init(p, tr[0])
    && (forall i :: 0 <= i < |tr| ==> Shape(p, tr[i]))
    && forall i :: 0 < i < |tr| ==> Step(p, tr[i - 1], tr[i])
  }

  lemma InitInv(p: Cube, s: State)
    requires Valid(p) && Init(p, s)
    ensures Inv(p, s)
  {
    InitControl(p, s);
    forall c: nat, k: nat, b: nat | c < Cards(p) ensures ContentOk(p, s, c, k, b) { PartnerInRange(p, c, k); }
  }

  lemma {:induction false} RunInv(p: Cube, tr: seq<State>)
    requires Valid(p) && Run(p, tr)
    ensures Inv(p, tr[|tr| - 1])
    decreases |tr|
  {
    if |tr| == 1 {
      InitInv(p, tr[0]);
    } else {
      var s := tr[|tr| - 2];
      assert tr[..|tr| - 1][|tr| - 2] == s;
      RunInv(p, tr[..|tr| - 1]);
      assert Step(p, s, tr[|tr| - 1]);
      var c: nat :| At(p, s, c) && Enabled(p, s, c) && tr[|tr| - 1] == Apply(p, s, c);
      StepInv(p, s, c);
    }
  }

  /** Every card that has finished a call has given its users the call's result. */
  lemma DoublingDelivers(p: Cube, tr: seq<State>, c: nat, g: nat)
    requires Valid(p) && Run(p, tr) && c < Cards(p) && g < |p.kinds|
    requires Start(p.lg, g + 1) <= tr[|tr| - 1].pc[c].k
    ensures
      var user := tr[|tr| - 1].user[c];
      g in user && user[g] == Result(p.kinds[g], p.lg, g, c)
  {
    RunInv(p, tr);
    assert UserOk(p, tr[|tr| - 1], c, g);
  }

  /** No card can send the flag of round k + DEV_NUM before all cards have got past the wait
      of round k, so four flag slots never mix up rounds. */
  lemma SlotsSuffice(p: Cube, tr: seq<State>, c: nat, d: nat, k: nat)
    requires Valid(p) && Run(p, tr) && c < Cards(p) && d < Cards(p)
    requires Sent(tr[|tr| - 1].pc[c]) > k + DEV_NUM
    ensures Waited(tr[|tr| - 1].pc[d]) > k
  {
    RunInv(p, tr);
    NoLap(p, tr[|tr| - 1], c, d, k);
  }

  /** A wait with `>=` ends exactly when the partner has sent the flag of this very round. */
  lemma WaitIsExact(p: Cube, tr: seq<State>, c: nat)
    requires Valid(p) && Run(p, tr) && At(p, tr[|tr| - 1], c) && tr[|tr| - 1].pc[c].st == Await
    ensures
      var s := tr[|tr| - 1];
      var k := s.pc[c].k;
      && (Enabled(p, s, c) ==> s.slot[c][SlotNo(p, k)] == p.peercnt + k + 1)
      && PcsOk(p, s) && (Enabled(p, s, c) <==> Told(p, s, c, k))
  {
    RunInv(p, tr);
    WaitExact(p, tr[|tr| - 1], c);
  }

  /** No card is two calls ahead of another, so the halves of the small buffers are never
      in use for two calls at once. */
  lemma HalvesSuffice(p: Cube, tr: seq<State>, x: nat, y: nat, g: nat)
    requires Valid(p) && Run(p, tr) && x < Cards(p) && y < Cards(p)
    requires tr[|tr| - 1].pc[x].k >= Start(p.lg, g + 2)
    ensures tr[|tr| - 1].pc[y].k >= Start(p.lg, g + 1)
  {
    RunInv(p, tr);
    OneCallBehind(p, tr[|tr| - 1], x, y, g + 2);
  }

  /** While a push is in flight its target neither sends nor reduces those blocks. */
  lemma RaceFree(p: Cube, tr: seq<State>, x: nat, b: nat)
    requires Valid(p) && Run(p, tr) && At(p, tr[|tr| - 1], x) && tr[|tr| - 1].pc[x].st == Push
    requires
      var s := tr[|tr| - 1];
      var c := Partner(p, x, s.pc[x].k);
      && At(p, s, c) && InPayload(KindOf(p, s.pc[x].k), p.lg, x, Dim(p.lg, s.pc[x].k), b)
      && HalfNo(p, CallNo(p.lg, s.pc[c].k)) == HalfNo(p, CallNo(p.lg, s.pc[x].k))
    ensures
      var s := tr[|tr| - 1];
      var c := Partner(p, x, s.pc[x].k);
      var i := Dim(p.lg, s.pc[c].k);
      && b != c
      && (s.pc[c].st == Push ==> !InPayload(KindOf(p, s.pc[c].k), p.lg, c, i, b))
      && (s.pc[c].st == Fold ==> !SameGroup(b, c, i + 1))
  {
    var s := tr[|tr| - 1];
    var Pc(k, _) := s.pc[x];
    var c := Partner(p, x, k);
    RunInv(p, tr);
    PartnerInRange(p, x, k);
    RoundOf(p.lg, k);
    RoundOf(p.lg, s.pc[c].k);
    SameCall(p, s, x, c, c, CallNo(p.lg, s.pc[c].k));
    assert WaitOk(p, s, c, k);
    var (i, j) := (Dim(p.lg, s.pc[c].k), Dim(p.lg, k));
    PayloadInGroup(KindOf(p, k), p.lg, x, j, b);
    ArrivalsApart(c, j, j, b);
    if SameGroup(b, c, i + 1) && i < j {
      GroupsGrow(b, c, i + 1, j);
      GroupsJoin(c, j);
    }
    NotYetGathered(p, s, c, j, b);
  }

  /** A block of the partner's group of round j is not in the card's own groups up to j. */
  lemma NotYetGathered(p: Cube, s: State, c: nat, j: nat, b: nat)
    requires p.lg > 0 && At(p, s, c) && SameGroup(b, Flip(c, j), j) && Dim(p.lg, s.pc[c].k) <= j
    ensures !InPayload(KindOf(p, s.pc[c].k), p.lg, c, Dim(p.lg, s.pc[c].k), b)
  {
    var i := Dim(p.lg, s.pc[c].k);
    if InPayload(KindOf(p, s.pc[c].k), p.lg, c, i, b) {
      PayloadInGroup(KindOf(p, s.pc[c].k), p.lg, c, i, b);
      GroupsGrow(b, c, i, j);
      GroupsJoin(c, j);
    }
  }

  // ---- progress -------------------------------------------------------------------------

  function Rank(st: Stage): nat {
    match st case Load => 0 case Push => 1 case Flag => 2 case Await => 3 case Fold => 4
  }

  function Position(pc: Pc): nat {
    5 * pc.k + Rank(pc.st)
  }

  lemma {:induction false} Last(p: Cube, s: State, k: nat) returns (c: nat)
    requires p.lg > 0 && PcsOk(p, s) && 0 < k <= Cards(p)
    ensures c < k && forall d :: 0 <= d < k ==> Position(s.pc[c]) <= Position(s.pc[d])
    decreases k
  {
    if k == 1 {
      c := 0;
    } else {
      c := Last(p, s, k - 1);
      if Position(s.pc[k - 1]) < Position(s.pc[c]) { c := k - 1; }
    }
  }

  ghost predicate SomeoneCanStep(p: Cube, s: State)
    requires p.lg > 0
  {
    exists c: nat :: At(p, s, c) && Enabled(p, s, c)
  }

  /** As long as some card is not finished, some card can take a step. */
  lemma DoublingNeverDeadlocks(p: Cube, tr: seq<State>, d: nat)
    requires Valid(p) && Run(p, tr) && d < Cards(p) && tr[|tr| - 1].pc[d].k < Rounds(p)
    ensures SomeoneCanStep(p, tr[|tr| - 1])
  {
    var s := tr[|tr| - 1];
    RunInv(p, tr);
    var c := Last(p, s, Cards(p));
    assert Position(s.pc[c]) <= Position(s.pc[d]);
    if s.pc[c].st == Await {
      WaitExact(p, s, c);
      PartnerInRange(p, c, s.pc[c].k);
    }
    assert At(p, s, c) && Enabled(p, s, c);
  }

  function Total(s: State, k: nat): nat
    requires k <= |s.pc|
  {
    if k == 0 then 0 else Total(s, k - 1) + Position(s.pc[k - 1])
  }

  lemma {:induction false} TotalGrows(p: Cube, s: State, s': State, c: nat, k: nat)
    requires p.lg > 0 && k <= |s.pc| == |s'.pc| && c < |s.pc| && s'.pc == s.pc[c := Advance(p, s.pc[c])]
    ensures Total(s', k) >= Total(s, k) + if c < k then 1 else 0
    decreases k
  {
    if k > 0 { TotalGrows(p, s, s', c, k - 1); }
  }

  lemma {:induction false} TotalBound(p: Cube, s: State, k: nat)
    requires p.lg > 0 && PcsOk(p, s) && k <= Cards(p)
    ensures Total(s, k) <= Times(k, 5 * Rounds(p))
    decreases k
  {
    if k > 0 { TotalBound(p, s, k - 1); }
  }

  lemma {:induction false} RunTotal(p: Cube, tr: seq<State>)
    requires Valid(p) && Run(p, tr)
    ensures Inv(p, tr[|tr| - 1]) && |tr| <= 1 + Total(tr[|tr| - 1], Cards(p))
    decreases |tr|
  {
    RunInv(p, tr);
    if |tr| > 1 {
      var before := tr[..|tr| - 1];
      RunTotal(p, before);
      var (s, s') := (before[|tr| - 2], tr[|tr| - 1]);
      assert Step(p, tr[|tr| - 2], tr[|tr| - 1]);
      var c: nat :| At(p, s, c) && Enabled(p, s, c) && s' == Apply(p, s, c);
      TotalGrows(p, s, s', c, Cards(p));
    }
  }

  /** Runs are bounded, so a run that cannot be extended has finished everywhere. */
  lemma DoublingTerminates(p: Cube, tr: seq<State>)
    requires Valid(p) && Run(p, tr)
    ensures |tr| <= 1 + Times(Cards(p), 5 * Rounds(p))
  {
    RunTotal(p, tr);
    TotalBound(p, tr[|tr| - 1], Cards(p));
  }

  // ---- what the schedules compute ----------------------------------------------------------

  function InputsFrom<T>(input: (nat, nat, nat) -> T, g: nat, first: nat, count: nat): (xs: seq<T>)
    ensures |xs| == count && forall j :: 0 <= j < count ==> xs[j] == input(first + j, g, 0)
  {
    seq(count, j requires 0 <= j < count => input(first + j, g, 0))
  }

  /** The device's reduction of gathered blocks is the plain reduction, without any law. */
  lemma {:induction false} FoldIsReduce<T>(g: nat, first: nat, count: nat, op: (T, T) -> T,
      input: (nat, nat, nat) -> T, junk: T)
    requires count > 0
    ensures Eval(FoldTerms(Leaves(g, first, count)), op, input, junk) == Reduce(op, InputsFrom(input, g, first, count))
    decreases count
  {
    var (ls, xs) := (Leaves(g, first, count), InputsFrom(input, g, first, count));
    if count > 1 {
      FoldIsReduce(g, first, count - 1, op, input, junk);
      assert ls[..count - 1] == Leaves(g, first, count - 1);
      assert xs[..count - 1] == InputsFrom(input, g, first, count - 1);
    }
  }

  lemma InputsJoin<T>(input: (nat, nat, nat) -> T, g: nat, first: nat, count: nat)
    ensures InputsFrom(input, g, first, count) + InputsFrom(input, g, first + count, count)
      == InputsFrom(input, g, first, 2 * count)
  {
  }

  /** Two stretches of cards side by side, reduced in either order. */
  lemma JoinEither<T(!new)>(g: nat, low: nat, count: nat, swap: bool, op: (T, T) -> T, input: (nat, nat, nat) -> T)
    requires Associative(op) && Commutative(op) && count > 0
    ensures
      var (a, b) := (if swap then low + count else low, if swap then low else low + count);
      op(Reduce(op, InputsFrom(input, g, a, count)), Reduce(op, InputsFrom(input, g, b, count)))
      == Reduce(op, InputsFrom(input, g, low, 2 * count))
  {
    var (xs, ys) := (InputsFrom(input, g, low, count), InputsFrom(input, g, low + count, count));
    InputsJoin(input, g, low, count);
    ReduceAppend(op, xs, ys);
    assert Swaps(op, Reduce(op, ys), Reduce(op, xs));
  }

  /** Reduction over the group of card c after i rounds. */
  function GroupSum<T>(g: nat, c: nat, i: nat, op: (T, T) -> T, input: (nat, nat, nat) -> T): T {
    Reduce(op, InputsFrom(input, g, Base(c, i), Pow2(i)))
  }

  lemma JoinReduce<T(!new)>(g: nat, c: nat, i: nat, op: (T, T) -> T, input: (nat, nat, nat) -> T)
    requires Associative(op) && Commutative(op)
    ensures op(GroupSum(g, c, i, op, input), GroupSum(g, Flip(c, i), i, op, input)) == GroupSum(g, c, i + 1, op, input)
  {
    GroupsJoin(c, i);
    JoinEither(g, Base(c, i + 1), Pow2(i), Bit(c, i) != 0, op, input);
  }

  /** After i rounds of reducing in every round, a card's block is its group's reduction. */
  lemma {:induction false} OwnIsGroup<T(!new)>(lg: nat, g: nat, c: nat, i: nat, op: (T, T) -> T,
      input: (nat, nat, nat) -> T, junk: T)
    requires Associative(op) && Commutative(op)
    ensures Eval(Own(EachRound, lg, g, c, i), op, input, junk) == GroupSum(g, c, i, op, input)
    decreases i
  {
    if i > 0 {
      OwnIsGroup(lg, g, c, i - 1, op, input, junk);
      OwnIsGroup(lg, g, Flip(c, i - 1), i - 1, op, input, junk);
      JoinReduce(g, c, i - 1, op, input);
    } else {
      var xs := InputsFrom(input, g, Base(c, 0), Pow2(0));
      assert |xs| == 1 && xs[0] == input(c, g, 0);
    }
  }

  /** Every schedule, on every power of two of cards, computes the reduction of all cards'
      contributions in card order. */
  lemma ResultIsReduction<T(!new)>(kind: Kind, lg: nat, g: nat, c: nat, op: (T, T) -> T, input: (nat, nat, nat) -> T,
      junk: T)
    requires lg >= 1 && c < Pow2(lg)
    requires kind == GatherAll || (Associative(op) && Commutative(op))
    ensures Eval(Result(kind, lg, g, c), op, input, junk) == Reduce(op, InputsFrom(input, g, 0, Pow2(lg)))
  {
    match kind
    case GatherAll => FoldIsReduce(g, 0, Pow2(lg), op, input, junk);
    case GatherHalf => HalvesReduce(lg, g, c, op, input, junk);
    case EachRound => RoundsReduce(lg, g, c, op, input, junk);
  }

  lemma HalvesReduce<T(!new)>(lg: nat, g: nat, c: nat, op: (T, T) -> T, input: (nat, nat, nat) -> T, junk: T)
    requires lg >= 1 && c < Pow2(lg) && Associative(op) && Commutative(op)
    ensures Eval(Result(GatherHalf, lg, g, c), op, input, junk) == Reduce(op, InputsFrom(input, g, 0, Pow2(lg)))
  {
    HalvesJoin(lg, g, c, op, input, junk);
    HalvesAreAll(lg, g, c, op, input);
  }

  lemma HalvesAreAll<T(!new)>(lg: nat, g: nat, c: nat, op: (T, T) -> T, input: (nat, nat, nat) -> T)
    requires lg >= 1 && c < Pow2(lg) && Associative(op) && Commutative(op)
    ensures
      op(GroupSum(g, c, lg - 1, op, input), GroupSum(g, Flip(c, lg - 1), lg - 1, op, input)) ==
      Reduce(op, InputsFrom(input, g, 0, Pow2(lg)))
  {
    JoinReduce(g, c, lg - 1, op, input);
    WholeGroup(c, lg);
  }

  lemma HalvesJoin<T>(lg: nat, g: nat, c: nat, op: (T, T) -> T, input: (nat, nat, nat) -> T, junk: T)
    requires lg >= 1
    ensures
      Eval(Result(GatherHalf, lg, g, c), op, input, junk) ==
      op(GroupSum(g, c, lg - 1, op, input), GroupSum(g, Flip(c, lg - 1), lg - 1, op, input))
  {
    HalfIsGroup(lg, g, c, op, input, junk);
    HalfIsGroup(lg, g, Flip(c, lg - 1), op, input, junk);
  }

  lemma HalfIsGroup<T>(lg: nat, g: nat, c: nat, op: (T, T) -> T, input: (nat, nat, nat) -> T, junk: T)
    requires lg >= 1
    ensures Eval(Own(GatherHalf, lg, g, c, lg - 1), op, input, junk) == GroupSum(g, c, lg - 1, op, input)
  {
    FoldIsReduce(g, Base(c, lg - 1), Pow2(lg - 1), op, input, junk);
  }

  lemma RoundsReduce<T(!new)>(lg: nat, g: nat, c: nat, op: (T, T) -> T, input: (nat, nat, nat) -> T, junk: T)
    requires lg >= 1 && c < Pow2(lg) && Associative(op) && Commutative(op)
    ensures Eval(Result(EachRound, lg, g, c), op, input, junk) == Reduce(op, InputsFrom(input, g, 0, Pow2(lg)))
  {
    assert Result(EachRound, lg, g, c) == Own(EachRound, lg, g, c, lg);
    OwnIsGroup(lg, g, c, lg, op, input, junk);
    WholeGroup(c, lg);
  }

  /** Gathering everything first gives the same expression on all cards, whatever op is. */
  lemma GatherAgrees(lg: nat, g: nat, c: nat, d: nat)
    requires lg >= 1
    ensures Result(GatherAll, lg, g, c) == Result(GatherAll, lg, g, d)
  {
  }
}
