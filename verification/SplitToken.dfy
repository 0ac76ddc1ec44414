/** How the ranks of a card share a call: strided chunks, and a token (the split flag) that
    gives each its turn at the device (src/proc.cc: tcclNicPublicWork and the branches of
    tcclPublicWork that test ifSplit). */
module SplitToken {
  import opened Arith
  import opened Cycle

  const DEV_NUM_MAX: nat := 4

  // ---- strided chunks -----------------------------------------------------------------

  /** Passes of a loop that goes from g to `chunks` in strides of `ranks`. */
  function PassesFrom(ranks: nat, chunks: nat, g: nat): nat
    requires ranks > 0
    decreases chunks - g
  {
    if g >= chunks then 0 else 1 + PassesFrom(ranks, chunks, g + ranks)
  }

  lemma {:induction false} PassesFromIs(ranks: nat, chunks: nat, g: nat, i: nat)
    requires ranks > 0
    ensures i < PassesFrom(ranks, chunks, g) <==> g + Times(i, ranks) < chunks
    decreases i
  {
    if i > 0 { PassesFromIs(ranks, chunks, g + ranks, i - 1); }
  }

  /** The chunks of a call of `total` elements, `step` at a time. */
  function ChunkCount(total: nat, step: nat): nat
    requires step > 0
    decreases total
  {
    if total == 0 then 0 else if total <= step then 1 else 1 + ChunkCount(total - step, step)
  }

  lemma {:induction false} ChunkCountIs(total: nat, step: nat, g: nat)
    requires step > 0
    ensures g < ChunkCount(total, step) <==> Times(g, step) < total
    decreases total
  {
    if total > step {
      if g > 0 { ChunkCountIs(total - step, step, g - 1); }
    } else if g > 0 {
      TimesStep(0, g, step);
    }
  }

  /** Rank r's pass i handles chunk i * ranks + r, that is these elements. */
  predicate Handles(ranks: nat, step: nat, total: nat, r: nat, i: nat, x: nat) {
    var cnt := Times(Times(i, ranks) + r, step);
    cnt < total && cnt <= x < (if cnt + step > total then total else cnt + step)
  }

  /** The chunks of all ranks partition the elements: every element is handled, by one rank
      in one pass. */
  lemma ChunksPartition(ranks: nat, step: nat, total: nat, x: nat) returns (r: nat, i: nat)
    requires ranks > 0 && step > 0 && x < total
    ensures r < ranks && i < PassesFrom(ranks, ChunkCount(total, step), r) && Handles(ranks, step, total, r, i, x)
    ensures forall r2: nat, i2: nat :: r2 < ranks && Handles(ranks, step, total, r2, i2, x) ==> r2 == r && i2 == i
  {
    var g := ChunkOf(step, x);
    r, i := Share(ranks, g);
    ChunkCountIs(total, step, g);
    PassesFromIs(ranks, ChunkCount(total, step), r, i);
    forall r2: nat, i2: nat | r2 < ranks && Handles(ranks, step, total, r2, i2, x) ensures r2 == r && i2 == i {
      OneChunk(step, g, Times(i2, ranks) + r2, x);
      OneShare(ranks, r, i, r2, i2);
    }
  }

  lemma ChunkOf(step: nat, x: nat) returns (g: nat)
    requires step > 0
    ensures Times(g, step) <= x < Times(g, step) + step
  {
    g := x / step;
    TimesIs(g, step);
    assert x == g * step + x % step;
  }

  lemma Share(ranks: nat, g: nat) returns (r: nat, i: nat)
    requires ranks > 0
    ensures r < ranks && Times(i, ranks) + r == g
  {
    r, i := g % ranks, g / ranks;
    TimesIs(i, ranks);
    assert g == i * ranks + r;
  }

  lemma OneShare(ranks: nat, r: nat, i: nat, r2: nat, i2: nat)
    requires r < ranks && r2 < ranks && Times(i, ranks) + r == Times(i2, ranks) + r2
    ensures r == r2 && i == i2
  {
    if i < i2 { TimesStep(i, i2, ranks); }
    if i2 < i { TimesStep(i2, i, ranks); }
  }

  lemma OneChunk(step: nat, g: nat, h: nat, x: nat)
    requires step > 0 && Times(g, step) <= x < Times(g, step) + step && Times(h, step) <= x < Times(h, step) + step
    ensures g == h
  {
    if g < h { TimesStep(g, h, step); }
    if h < g { TimesStep(h, g, step); }
  }

  // ---- the program of a rank ---------------------------------------------------------------

  /** Ranks of the card, and the number of chunks of every call. */
  datatype Card = Card(ranks: nat, calls: seq<nat>)

  predicate Valid(p: Card) {
    p.ranks > 0
  }

  /** More chunks than ranks: the ranks take turns. */
  predicate Splits(p: Card, g: nat)
    requires g < |p.calls|
  {
    p.calls[g] > p.ranks
  }

  function Passes(p: Card, g: nat, r: nat): nat
    requires Valid(p) && g < |p.calls|
  {
    PassesFrom(p.ranks, p.calls[g], r)
  }

  datatype Stage = Reset | Wait(i: nat) | Reduce(i: nat) | Pass(i: nat) | Meet | Clear

  datatype Pc = Pc(g: nat, st: Stage)

  function TurnFrom(p: Card, g: nat, r: nat, i: nat): Stage
    requires Valid(p) && g < |p.calls|
  {
    if i < Passes(p, g, r) then Wait(i) else Meet
  }

  function Advance(p: Card, r: nat, pc: Pc): Pc
    requires Valid(p) && pc.g < |p.calls|
  {
    match pc.st
    case Reset => Pc(pc.g, TurnFrom(p, pc.g, r, 0))
    case Wait(i) => Pc(pc.g, Reduce(i))
    case Reduce(i) => Pc(pc.g, Pass(i))
    case Pass(i) => Pc(pc.g, TurnFrom(p, pc.g, r, i + 1))
    case Meet => Pc(pc.g, Clear)
    case Clear => Pc(pc.g + 1, Reset)
  }

  predicate PcOk(p: Card, r: nat, pc: Pc)
    requires Valid(p)
  {
    if pc.g < |p.calls| then
      match pc.st
      case Wait(i) => i < Passes(p, pc.g, r)
      case Reduce(i) => i < Passes(p, pc.g, r)
      case Pass(i) => i < Passes(p, pc.g, r)
      case _ => true
    else pc == Pc(|p.calls|, Reset)
  }

  // ---- all ranks ------------------------------------------------------------------------------

  /** `flag` are the split flags; `lap` counts how often each has gone round. */
  datatype State = State(pc: seq<Pc>, flag: seq<nat>, lap: seq<nat>)

  predicate Shape(p: Card, s: State) {
    |s.pc| == p.ranks && |s.flag| == |s.lap| == DEV_NUM_MAX
  }

  ghost predicate At(p: Card, s: State, r: nat) {
    Valid(p) && Shape(p, s) && r < p.ranks && s.pc[r].g < |p.calls| && PcOk(p, r, s.pc[r])
  }

  function Slot(g: nat): (q: nat)
    ensures q < DEV_NUM_MAX
  {
    g % DEV_NUM_MAX
  }

  predicate Reached(pc: Pc, g: nat) {
    pc.g > g || (pc.g == g && (pc.st == Meet || pc.st == Clear))
  }

  predicate Enabled(p: Card, s: State, r: nat)
    requires At(p, s, r)
  {
    var Pc(g, st) := s.pc[r];
    match st
    case Wait(i) => Splits(p, g) ==> s.flag[Slot(g)] == r
    case Meet => forall t :: 0 <= t < p.ranks ==> Reached(s.pc[t], g)
    case _ => true
  }

  function Set(xs: seq<nat>, q: nat, v: nat): (r: seq<nat>)
    requires q < |xs|
    ensures |r| == |xs|
  {
    xs[q := v]
  }

  function Apply(p: Card, s: State, r: nat): State
    requires At(p, s, r)
  {
    var Pc(g, st) := s.pc[r];
    var q := Slot(g);
    var pc' := s.pc[r := Advance(p, r, s.pc[r])];
    if Splits(p, g) && r == 0 && (st == Reset || st == Clear) then State(pc', Set(s.flag, q, 0), Set(s.lap, q, 0))
    else if Splits(p, g) && st.Pass? then
      State(pc', Set(s.flag, q, Next(p.ranks, r)), if r + 1 == p.ranks then Set(s.lap, q, s.lap[q] + 1) else s.lap)
    else State(pc', s.flag, s.lap)
  }

  predicate Init(p: Card, s: State) {
    && Shape(p, s)
    && (forall r :: 0 <= r < p.ranks ==> s.pc[r] == Pc(0, Reset))
    && (forall q :: 0 <= q < DEV_NUM_MAX ==> s.flag[q] == s.lap[q] == 0)
  }

  // ---- invariant ------------------------------------------------------------------------------

  /** Turns that a rank has taken in call g. */
  function Taken(p: Card, r: nat, pc: Pc, g: nat): nat
    requires Valid(p) && g < |p.calls|
  {
    if pc.g > g then Passes(p, g, r)
    else if pc.g < g then 0
    else
      match pc.st
      case Reset => 0
      case Wait(i) => i
      case Reduce(i) => i
      case Pass(i) => i
      case _ => Passes(p, g, r)
  }

  function Cap(a: nat, b: nat): nat {
    if a < b then a else b
  }

  ghost predicate PcsOk(p: Card, s: State) {
    Valid(p) && Shape(p, s) && forall r :: 0 <= r < p.ranks ==> s.pc[r].g <= |p.calls| && PcOk(p, r, s.pc[r])
  }

  /** The ranks below the token have taken one turn more than the others, as far as they
      have turns to take. */
  ghost predicate TurnOk(p: Card, s: State, r: nat)
    requires PcsOk(p, s) && r < p.ranks
  {
    var g := s.pc[0].g;
    g < |p.calls| && Splits(p, g) ==>
      var (flag, lap) := (s.flag[Slot(g)], s.lap[Slot(g)]);
      && Taken(p, r, s.pc[r], g) == Cap(Passes(p, g, r), if r < flag then lap + 1 else lap)
      && (s.pc[r].g == g && (s.pc[r].st.Reduce? || s.pc[r].st.Pass?) ==> flag == r)
  }

  /** Flags that are not in use are clear; the one in use is, until rank 0 has come. */
  ghost predicate FlagsOk(p: Card, s: State)
    requires PcsOk(p, s)
  {
    var g := s.pc[0].g;
    && (forall q :: 0 <= q < DEV_NUM_MAX ==> s.flag[q] < p.ranks)
    && (forall q :: 0 <= q < DEV_NUM_MAX && !(g < |p.calls| && Splits(p, g) && q == Slot(g)) ==>
                      s.flag[q] == s.lap[q] == 0)
    && (g < |p.calls| && s.pc[0].st == Reset ==> s.flag[Slot(g)] == s.lap[Slot(g)] == 0)
  }

  /** No rank is more than a call ahead of or behind another, and one that is ahead in a call
      with turns has taken none. */
  ghost predicate CloseOk(p: Card, s: State, r: nat, t: nat)
    requires PcsOk(p, s) && r < p.ranks && t < p.ranks
  {
    && (s.pc[r].g > s.pc[t].g ==> s.pc[r].g == s.pc[t].g + 1 && Reached(s.pc[t], s.pc[t].g))
    && (s.pc[r].st == Clear ==> Reached(s.pc[t], s.pc[r].g))
  }

  ghost predicate AheadOk(p: Card, s: State, r: nat)
    requires PcsOk(p, s) && r < p.ranks
  {
    var g := s.pc[r].g;
    g > s.pc[0].g && g < |p.calls| && Splits(p, g) ==>
      Taken(p, r, s.pc[r], g) == 0 && !s.pc[r].st.Reduce? && !s.pc[r].st.Pass?
  }

  ghost predicate Inv(p: Card, s: State) {
    && PcsOk(p, s) && FlagsOk(p, s)
    && (forall r :: 0 <= r < p.ranks ==> TurnOk(p, s, r) && AheadOk(p, s, r))
    && (forall r: nat, t: nat :: r < p.ranks && t < p.ranks ==> CloseOk(p, s, r, t))
  }

  lemma InitInv(p: Card, s: State)
    requires Valid(p) && Init(p, s)
    ensures Inv(p, s)
  {
    assert PcsOk(p, s);
    forall r | 0 <= r < p.ranks ensures TurnOk(p, s, r) && AheadOk(p, s, r) { }
  }

  /** In a call with more chunks than ranks everybody has a chunk. */
  lemma EveryoneHasOne(p: Card, g: nat, r: nat)
    requires Valid(p) && g < |p.calls| && Splits(p, g) && r < p.ranks
    ensures Passes(p, g, r) > 0
  {
  }

  // ---- preservation ------------------------------------------------------------------------------

  lemma PcsStep(p: Card, s: State, r: nat)
    requires PcsOk(p, s) && At(p, s, r)
    ensures PcsOk(p, Apply(p, s, r))
  {
  }

  lemma CloseStep(p: Card, s: State, c: nat, r: nat, t: nat)
    requires Inv(p, s) && At(p, s, c) && Enabled(p, s, c) && r < p.ranks && t < p.ranks && PcsOk(p, Apply(p, s, c))
    ensures CloseOk(p, Apply(p, s, c), r, t)
  {
    assert CloseOk(p, s, r, t) && CloseOk(p, s, t, r);
  }

  lemma FlagsStep(p: Card, s: State, c: nat)
    requires Inv(p, s) && At(p, s, c) && Enabled(p, s, c) && PcsOk(p, Apply(p, s, c))
    ensures FlagsOk(p, Apply(p, s, c))
  {
    assert TurnOk(p, s, c) && AheadOk(p, s, c) && CloseOk(p, s, c, 0) && CloseOk(p, s, 0, c);
  }

  lemma TurnStep(p: Card, s: State, c: nat, r: nat)
    requires Inv(p, s) && At(p, s, c) && Enabled(p, s, c) && r < p.ranks && PcsOk(p, Apply(p, s, c))
    ensures TurnOk(p, Apply(p, s, c), r)
  {
    assert TurnOk(p, s, r) && TurnOk(p, s, c) && AheadOk(p, s, r) && AheadOk(p, s, c);
    assert CloseOk(p, s, r, 0) && CloseOk(p, s, c, 0) && CloseOk(p, s, 0, c) && CloseOk(p, s, 0, r);
    if r != c && c != 0 { OthersTurn(p, s, c, r); }
  }

  lemma OthersTurn(p: Card, s: State, c: nat, r: nat)
    requires Inv(p, s) && At(p, s, c) && Enabled(p, s, c) && r < p.ranks && PcsOk(p, Apply(p, s, c)) && c != 0 && r != c
    ensures TurnOk(p, Apply(p, s, c), r)
  {
    assert TurnOk(p, s, r) && TurnOk(p, s, c) && AheadOk(p, s, c) && CloseOk(p, s, c, 0) && CloseOk(p, s, 0, c);
  }

  lemma AheadStep(p: Card, s: State, c: nat, r: nat)
    requires Inv(p, s) && At(p, s, c) && Enabled(p, s, c) && r < p.ranks && PcsOk(p, Apply(p, s, c))
    ensures AheadOk(p, Apply(p, s, c), r)
  {
    assert AheadOk(p, s, r) && CloseOk(p, s, c, 0) && CloseOk(p, s, r, 0);
    if r == c && s.pc[c].g < |p.calls| && Splits(p, s.pc[c].g) { EveryoneHasOne(p, s.pc[c].g, c); }
  }

  lemma StepInv(p: Card, s: State, c: nat)
    requires Inv(p, s) && At(p, s, c) && Enabled(p, s, c)
    ensures Inv(p, Apply(p, s, c))
  {
    var s' := Apply(p, s, c);
    PcsStep(p, s, c);
    FlagsStep(p, s, c);
    forall r | 0 <= r < p.ranks
      ensures TurnOk(p, s', r) && AheadOk(p, s', r)
    {
      TurnStep(p, s, c, r);
      AheadStep(p, s, c, r);
    }
    forall r: nat, t: nat | r < p.ranks && t < p.ranks ensures CloseOk(p, s', r, t) { CloseStep(p, s, c, r, t); }
  }

  // ---- whole runs -----------------------------------------------------------------------------------

  ghost predicate Step(p: Card, s: State, s': State) {
    exists r: nat :: At(p, s, r) && Enabled(p, s, r) && s' == Apply(p, s, r)
  }

  ghost predicate Run(p: Card, tr: seq<State>) {
    && tr != [] && Init(p, tr[0])
    && (forall i :: 0 <= i < |tr| ==> Shape(p, tr[i]))
    && forall i :: 0 < i < |tr| ==> Step(p, tr[i - 1], tr[i])
  }

  lemma {:induction false} RunInv(p: Card, tr: seq<State>)
    requires Valid(p) && Run(p, tr)
    ensures Inv(p, tr[|tr| - 1])
    decreases |tr|
  {
    if |tr| == 1 {
      InitInv(p, tr[0]);
    } else {
      var s := tr[|tr| - 2];
      assert tr[..|tr| - 1][|tr| - 2] == s;
      RunInv(p, tr[..|tr| - 1]);
      assert Step(p, s, tr[|tr| - 1]);
      var r: nat :| At(p, s, r) && Enabled(p, s, r) && tr[|tr| - 1] == Apply(p, s, r);
      StepInv(p, s, r);
    }
  }

  predicate HasTurn(p: Card, s: State, r: nat)
    requires r < |s.pc|
  {
    s.pc[r].g < |p.calls| && (s.pc[r].st.Reduce? || s.pc[r].st.Pass?)
  }

  /** Device reductions exclude each other: in a call with turns, nobody else of the card is
      at one, in this call or any other. */
  lemma TurnsExclude(p: Card, tr: seq<State>, r: nat, t: nat)
    requires Valid(p) && Run(p, tr) && r < p.ranks && t < p.ranks && HasTurn(p, tr[|tr| - 1], r)
      && HasTurn(p, tr[|tr| - 1], t)
    requires Splits(p, tr[|tr| - 1].pc[r].g)
    ensures r == t
  {
    var s := tr[|tr| - 1];
    RunInv(p, tr);
    InTurn(p, s, r);
    assert CloseOk(p, s, r, t) && CloseOk(p, s, t, r);
    if s.pc[t].g == s.pc[r].g { InTurn(p, s, t); }
  }

  lemma InTurn(p: Card, s: State, r: nat)
    requires Inv(p, s) && r < p.ranks && HasTurn(p, s, r) && Splits(p, s.pc[r].g)
    ensures s.pc[0].g == s.pc[r].g && s.flag[Slot(s.pc[r].g)] == r && s.lap[Slot(s.pc[r].g)] == s.pc[r].st.i
  {
    assert CloseOk(p, s, 0, r) && CloseOk(p, s, r, 0) && TurnOk(p, s, r) && AheadOk(p, s, r) && PcOk(p, r, s.pc[r]);
  }

  /** Reductions happen in the order of the chunks: when rank r reduces its i-th, exactly
      the chunks before it have been reduced, by whichever rank. */
  lemma TurnsInOrder(p: Card, tr: seq<State>, r: nat, t: nat, j: nat)
    requires Valid(p) && Run(p, tr) && r < p.ranks && t < p.ranks && HasTurn(p, tr[|tr| - 1], r)
      && Splits(p, tr[|tr| - 1].pc[r].g)
    requires j < Passes(p, tr[|tr| - 1].pc[r].g, t)
    ensures
      var s := tr[|tr| - 1];
      var (g, i) := (s.pc[r].g, s.pc[r].st.i);
      j < Taken(p, t, s.pc[t], g) <==> Times(j, p.ranks) + t < Times(i, p.ranks) + r
  {
    var s := tr[|tr| - 1];
    RunInv(p, tr);
    InTurn(p, s, r);
    assert TurnOk(p, s, t);
    var i := s.pc[r].st.i;
    if j < i { TimesStep(j, i, p.ranks); }
    if i < j { TimesStep(i, j, p.ranks); }
  }

  // ---- everybody finishes ------------------------------------------------------------------------------

  ghost predicate CanStep(p: Card, s: State, r: nat) {
    At(p, s, r) && Enabled(p, s, r)
  }

  ghost predicate SomeoneCanStep(p: Card, s: State) {
    exists r: nat :: CanStep(p, s, r)
  }

  lemma {:induction false} Last(p: Card, s: State, k: nat) returns (r: nat)
    requires PcsOk(p, s) && 0 < k <= p.ranks
    ensures r < k && forall t :: 0 <= t < k ==> s.pc[r].g <= s.pc[t].g
    decreases k
  {
    if k == 1 {
      r := 0;
    } else {
      r := Last(p, s, k - 1);
      if s.pc[k - 1].g < s.pc[r].g { r := k - 1; }
    }
  }

  /** Who waits for the token in vain waits for the rank that has it, which can go on. */
  lemma HolderGoesOn(p: Card, s: State, r: nat)
    requires Inv(p, s) && At(p, s, r) && s.pc[r].st.Wait? && Splits(p, s.pc[r].g) && s.pc[0].g == s.pc[r].g
    requires forall t :: 0 <= t < p.ranks ==> s.pc[r].g <= s.pc[t].g
    ensures SomeoneCanStep(p, s)
  {
    var g := s.pc[r].g;
    var f := s.flag[Slot(g)];
    assert TurnOk(p, s, r) && TurnOk(p, s, f) && PcOk(p, f, s.pc[f]) && PcOk(p, r, s.pc[r]);
    HolderHasTurn(p, g, f, r, s.lap[Slot(g)], s.pc[r].st.i);
    assert CanStep(p, s, f);
  }

  /** If some rank has a turn left, the rank with the token has. */
  lemma HolderHasTurn(p: Card, g: nat, f: nat, r: nat, lap: nat, i: nat)
    requires Valid(p) && g < |p.calls| && f < p.ranks && r < p.ranks && i < Passes(p, g, r)
    requires i == Cap(Passes(p, g, r), if r < f then lap + 1 else lap)
    ensures lap < Passes(p, g, f)
  {
    PassesFromIs(p.ranks, p.calls[g], r, i);
    PassesFromIs(p.ranks, p.calls[g], f, lap);
    if r < f { TimesStep(lap, lap + 1, p.ranks); }
  }

  /** As long as some rank is not finished, some rank can take a step, however unequal the
      numbers of their chunks. */
  lemma TurnsNeverBlock(p: Card, tr: seq<State>, t: nat)
    requires Valid(p) && Run(p, tr) && t < p.ranks && tr[|tr| - 1].pc[t].g < |p.calls|
    ensures SomeoneCanStep(p, tr[|tr| - 1])
  {
    var s := tr[|tr| - 1];
    RunInv(p, tr);
    var r := Last(p, s, p.ranks);
    if u: nat :| u < p.ranks && s.pc[u].g == s.pc[r].g && !Reached(s.pc[u], s.pc[u].g) {
      Unmet(p, s, r, u);
    } else {
      assert PcOk(p, r, s.pc[r]);
      assert CanStep(p, s, r);
    }
  }

  lemma Unmet(p: Card, s: State, r: nat, u: nat)
    requires Inv(p, s) && r < p.ranks && u < p.ranks && s.pc[u].g == s.pc[r].g < |p.calls|
      && !Reached(s.pc[u], s.pc[u].g)
    requires forall t :: 0 <= t < p.ranks ==> s.pc[r].g <= s.pc[t].g
    ensures SomeoneCanStep(p, s)
  {
    assert PcOk(p, u, s.pc[u]) && CloseOk(p, s, 0, u);
    if s.pc[u].st.Wait? && Splits(p, s.pc[u].g) {
      HolderGoesOn(p, s, u);
    } else {
      assert CanStep(p, s, u);
    }
  }

  // ---- runs are bounded ---------------------------------------------------------------------------------

  /** Where call g begins in the program of rank r. */
  function Start(p: Card, r: nat, g: nat): nat
    requires Valid(p) && g <= |p.calls|
  {
    if g == 0 then 0 else Start(p, r, g - 1) + 3 * Passes(p, g - 1, r) + 3
  }

  lemma {:induction false} StartMono(p: Card, r: nat, g: nat, h: nat)
    requires Valid(p) && g <= h <= |p.calls|
    ensures Start(p, r, g) <= Start(p, r, h)
    decreases h
  {
    if g < h { StartMono(p, r, g, h - 1); }
  }

  function Position(p: Card, r: nat, pc: Pc): nat
    requires Valid(p) && pc.g <= |p.calls|
  {
    Start(p, r, pc.g) +
    if pc.g == |p.calls| then 0
    else
      match pc.st
      case Reset => 0
      case Wait(i) => 1 + 3 * i
      case Reduce(i) => 2 + 3 * i
      case Pass(i) => 3 + 3 * i
      case Meet => 1 + 3 * Passes(p, pc.g, r)
      case Clear => 2 + 3 * Passes(p, pc.g, r)
  }

  lemma PositionGrows(p: Card, r: nat, pc: Pc)
    requires Valid(p) && pc.g < |p.calls| && PcOk(p, r, pc)
    ensures Position(p, r, Advance(p, r, pc)) > Position(p, r, pc)
  {
  }

  lemma PositionBound(p: Card, r: nat, pc: Pc)
    requires Valid(p) && pc.g <= |p.calls| && PcOk(p, r, pc)
    ensures Position(p, r, pc) <= Start(p, r, |p.calls|)
  {
    StartMono(p, r, if pc.g < |p.calls| then pc.g + 1 else pc.g, |p.calls|);
  }

  function Total(p: Card, s: State, k: nat): nat
    requires PcsOk(p, s) && k <= p.ranks
  {
    if k == 0 then 0 else Total(p, s, k - 1) + Position(p, k - 1, s.pc[k - 1])
  }

  function Length(p: Card, k: nat): nat
    requires Valid(p)
  {
    if k == 0 then 0 else Length(p, k - 1) + Start(p, k - 1, |p.calls|)
  }

  lemma {:induction false} TotalGrows(p: Card, s: State, r: nat, k: nat)
    requires PcsOk(p, s) && At(p, s, r) && PcsOk(p, Apply(p, s, r)) && k <= p.ranks
    ensures Total(p, Apply(p, s, r), k) >= Total(p, s, k) + if r < k then 1 else 0
    decreases k
  {
    PositionGrows(p, r, s.pc[r]);
    if k > 0 { TotalGrows(p, s, r, k - 1); }
  }

  lemma {:induction false} TotalBound(p: Card, s: State, k: nat)
    requires PcsOk(p, s) && k <= p.ranks
    ensures Total(p, s, k) <= Length(p, k)
    decreases k
  {
    if k > 0 {
      TotalBound(p, s, k - 1);
      PositionBound(p, k - 1, s.pc[k - 1]);
    }
  }

  lemma {:induction false} RunTotal(p: Card, tr: seq<State>)
    requires Valid(p) && Run(p, tr)
    ensures Inv(p, tr[|tr| - 1]) && |tr| <= 1 + Total(p, tr[|tr| - 1], p.ranks)
    decreases |tr|
  {
    RunInv(p, tr);
    if |tr| > 1 {
      var before := tr[..|tr| - 1];
      RunTotal(p, before);
      var (s, s') := (before[|tr| - 2], tr[|tr| - 1]);
      assert Step(p, tr[|tr| - 2], tr[|tr| - 1]);
      var r: nat :| At(p, s, r) && Enabled(p, s, r) && s' == Apply(p, s, r);
      TotalGrows(p, s, r, p.ranks);
    }
  }

  /** Runs are bounded: a run that cannot be extended has finished on every rank. */
  lemma TurnsTerminate(p: Card, tr: seq<State>)
    requires Valid(p) && Run(p, tr)
    ensures |tr| <= 1 + Length(p, p.ranks)
  {
    RunTotal(p, tr);
    TotalBound(p, tr[|tr| - 1], p.ranks);
  }
}
