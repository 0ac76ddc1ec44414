/** What the small buffers hold while cards exchange in doubling strides, and what the
    three schedules compute. */
module DoublingData {
  import opened Hypercube
  import opened Terms
  import opened Doubling
  import opened DoublingMachine

  // ---- values ------------------------------------------------------------------------

  /** Contributions of cards first .. first + count - 1 to call g. */
  function Leaves(g: nat, first: nat, count: nat): (xs: seq<Term>)
    ensures |xs| == count && forall j :: 0 <= j < count ==> xs[j] == Leaf(first + j, g, 0)
  {
    seq(count, j requires 0 <= j < count => Leaf(first + j, g, 0))
  }

  /** A card's own block after i rounds of call g. */
  function Own(kind: Kind, lg: nat, g: nat, c: nat, i: nat): Term
    decreases i
  {
    match kind
    case GatherAll => Leaf(c, g, 0)
    case GatherHalf => if i + 1 < lg || lg == 0 then Leaf(c, g, 0)
        else FoldTerms(Leaves(g, Base(c, lg - 1), Pow2(lg - 1)))
    case EachRound =>
      if i == 0 then Leaf(c, g, 0) else Node(Own(kind, lg, g, c, i - 1), Own(kind, lg, g, Flip(c, i - 1), i - 1))
  }

  /** What card c delivers to its users for call g. */
  function Result(kind: Kind, lg: nat, g: nat, c: nat): Term
    requires lg > 0
  {
    if kind == GatherAll then FoldTerms(Leaves(g, 0, Pow2(lg)))
    else Node(Own(kind, lg, g, c, lg - 1), Own(kind, lg, g, Flip(c, lg - 1), lg - 1))
  }

  /** What card x sends as block b in round i. */
  function Val(kind: Kind, lg: nat, g: nat, x: nat, i: nat, b: nat): Term {
    if Gathers(kind, lg, i) then Leaf(b, g, 0) else Own(kind, lg, g, x, i)
  }

  predicate InPayload(kind: Kind, lg: nat, x: nat, i: nat, b: nat) {
    First(kind, lg, x, i) <= b < First(kind, lg, x, i) + Width(kind, lg, i)
  }

  lemma PayloadInGroup(kind: Kind, lg: nat, x: nat, i: nat, b: nat)
    requires InPayload(kind, lg, x, i, b)
    ensures SameGroup(b, x, i)
  {
    GroupRange(b, x, i);
  }

  lemma EarlierApart(y: nat, i: nat, j: nat, b: nat)
    requires i < j && SameGroup(b, Flip(y, i), i)
    ensures !SameGroup(b, Flip(y, j), j)
  {
    GroupsJoin(y, i);
    GroupsJoin(y, j);
    GroupsGrow(b, Flip(y, i), i, i + 1);
    GroupsGrow(b, y, i + 1, j);
  }

  /** The blocks that arrive at card y in different rounds are different, and none is y's. */
  lemma ArrivalsApart(y: nat, i: nat, j: nat, b: nat)
    requires SameGroup(b, Flip(y, i), i)
    ensures b != y
    ensures i != j ==> !SameGroup(b, Flip(y, j), j)
  {
    GroupsJoin(y, i);
    if i < j { EarlierApart(y, i, j, b); }
    if j < i && SameGroup(b, Flip(y, j), j) { EarlierApart(y, j, i, b); }
  }

  // ---- invariant -----------------------------------------------------------------------

  predicate Has(m: Half, g: nat, b: nat, v: Term) {
    m.call == g && b in m.blocks && m.blocks[b] == v
  }

  ghost predicate OwnOk(p: Cube, s: State, c: nat)
    requires p.lg > 0 && PcsOk(p, s) && c < Cards(p)
  {
    var k := s.pc[c].k;
    var (g, i) := (CallNo(p.lg, k), Dim(p.lg, k));
    k < Rounds(p) && s.pc[c].st != Load ==> Has(s.mem[c][HalfNo(p, g)], g, c, Own(KindOf(p, k), p.lg, g, c, i))
  }

  /** Block b, pushed to card c in round k, is there until c has finished the call. */
  ghost predicate ContentOk(p: Cube, s: State, c: nat, k: nat, b: nat)
    requires p.lg > 0 && PcsOk(p, s) && c < Cards(p)
  {
    var (g, i) := (CallNo(p.lg, k), Dim(p.lg, k));
    PartnerInRange(p, c, k);
    var x := Partner(p, c, k);
    k < Rounds(p) && Pushed(s.pc[x]) > k && s.pc[c].k < Start(p.lg, g + 1) && InPayload(KindOf(p, k), p.lg, x, i, b) ==>
      Has(s.mem[c][HalfNo(p, g)], g, b, Val(KindOf(p, k), p.lg, g, x, i, b))
  }

  ghost predicate UserOk(p: Cube, s: State, c: nat, g: nat)
    requires p.lg > 0 && PcsOk(p, s) && c < Cards(p)
  {
    g < |p.kinds| && Start(p.lg, g + 1) <= s.pc[c].k ==>
      g in s.user[c] && s.user[c][g] == Result(p.kinds[g], p.lg, g, c)
  }

  ghost predicate Inv(p: Cube, s: State)
    requires p.lg > 0
  {
    && Control(p, s)
    && (forall c :: 0 <= c < Cards(p) ==> OwnOk(p, s, c))
    && (forall c: nat, k: nat, b: nat :: c < Cards(p) ==> ContentOk(p, s, c, k, b))
    && (forall c: nat, g: nat :: c < Cards(p) ==> UserOk(p, s, c, g))
  }

  // ---- two halves suffice -----------------------------------------------------------------

  /** When card x is in call g, every card has left call g-2. */
  lemma OneCallBehind(p: Cube, s: State, x: nat, y: nat, g: nat)
    requires Valid(p) && Control(p, s) && x < Cards(p) && y < Cards(p) && g > 0
    requires s.pc[x].k >= Start(p.lg, g)
    ensures Sent(s.pc[y]) > Start(p.lg, g - 1)
    ensures s.pc[y].k >= Start(p.lg, g - 1)
  {
    Everyone(p, s, x, y, Start(p.lg, g - 1));
  }

  /** While card x works in one half for call g, what card y holds there, and some card z
      has begun, is of the same call. */
  lemma SameCall(p: Cube, s: State, x: nat, y: nat, z: nat, h: nat)
    requires Valid(p) && Control(p, s) && At(p, s, x) && y < Cards(p) && z < Cards(p)
    requires s.pc[z].k >= Start(p.lg, h) && s.pc[y].k < Start(p.lg, h + 1)
    requires HalfNo(p, h) == HalfNo(p, CallNo(p.lg, s.pc[x].k))
    ensures h == CallNo(p.lg, s.pc[x].k)
  {
    var g := CallNo(p.lg, s.pc[x].k);
    RoundOf(p.lg, s.pc[x].k);
    if h > g {
      HalvesAlternate(p, g, h);
      OneCallBehind(p, s, z, x, h);
      StartGrows(p.lg, g + 1, h - 1);
      assert false;
    }
    if h < g {
      HalvesAlternate(p, h, g);
      OneCallBehind(p, s, x, y, g);
      StartGrows(p.lg, h + 1, g - 1);
      assert false;
    }
  }

  lemma HalvesAlternate(p: Cube, g: nat, h: nat)
    requires g < h && HalfNo(p, g) == HalfNo(p, h)
    ensures g + 2 <= h
  {
    assert (p.stepNo + g + 1) % 2 != (p.stepNo + g) % 2;
  }

  // ---- what a card has gathered ----------------------------------------------------------

  /** After i rounds of gathering a card has its whole group's contributions. */
  lemma {:induction false} HasGroup(p: Cube, s: State, x: nat, i: nat, b: nat)
    requires Valid(p) && Inv(p, s) && At(p, s, x) && s.pc[x].st != Load && i <= p.lg
    requires
      var g := CallNo(p.lg, s.pc[x].k);
      && Waited(s.pc[x]) >= Start(p.lg, g) + i
      && Own(KindOf(p, s.pc[x].k), p.lg, g, x, Dim(p.lg, s.pc[x].k)) == Leaf(x, g, 0)
      && (i > 0 ==> Gathers(KindOf(p, s.pc[x].k), p.lg, i - 1))
    requires SameGroup(b, x, i)
    ensures
      var g := CallNo(p.lg, s.pc[x].k);
      Has(s.mem[x][HalfNo(p, g)], g, b, Leaf(b, g, 0))
    decreases i
  {
    var g := CallNo(p.lg, s.pc[x].k);
    if i == 0 {
      assert OwnOk(p, s, x);
    } else {
      Joined(b, x, i - 1);
      if SameGroup(b, x, i - 1) { HasGroup(p, s, x, i - 1, b); } else { HasArrived(p, s, x, i - 1, b); }
    }
  }

  /** What the partner of round i of the present call sent is there once it is waited for. */
  lemma HasArrived(p: Cube, s: State, x: nat, i: nat, b: nat)
    requires Valid(p) && Inv(p, s) && At(p, s, x) && i < p.lg
    requires Waited(s.pc[x]) > Start(p.lg, CallNo(p.lg, s.pc[x].k)) + i
    requires if Gathers(KindOf(p, s.pc[x].k), p.lg, i) then SameGroup(b, Flip(x, i), i) else b == Flip(x, i)
    ensures
      var g := CallNo(p.lg, s.pc[x].k);
      Has(s.mem[x][HalfNo(p, g)], g, b, Val(KindOf(p, s.pc[x].k), p.lg, g, Flip(x, i), i, b))
  {
    var g := CallNo(p.lg, s.pc[x].k);
    var k := Start(p.lg, g) + i;
    RoundIs(p.lg, g, i);
    RoundOf(p.lg, s.pc[x].k);
    GroupRange(b, Flip(x, i), i);
    assert WaitOk(p, s, x, k) && ContentOk(p, s, x, k, b);
    PartnerInRange(p, x, k);
  }

  /** What a card pushes is what the schedule says. */
  lemma SendsVal(p: Cube, s: State, x: nat, b: nat)
    requires Valid(p) && Inv(p, s) && At(p, s, x) && s.pc[x].st == Push
    requires InPayload(KindOf(p, s.pc[x].k), p.lg, x, Dim(p.lg, s.pc[x].k), b)
    ensures
      var (g, i) := (CallNo(p.lg, s.pc[x].k), Dim(p.lg, s.pc[x].k));
      Has(s.mem[x][HalfNo(p, g)], g, b, Val(KindOf(p, s.pc[x].k), p.lg, g, x, i, b))
  {
    var i := Dim(p.lg, s.pc[x].k);
    RoundOf(p.lg, s.pc[x].k);
    assert OwnOk(p, s, x);
    if Gathers(KindOf(p, s.pc[x].k), p.lg, i) {
      PayloadInGroup(KindOf(p, s.pc[x].k), p.lg, x, i, b);
      HasGroup(p, s, x, i, b);
    }
  }

  lemma ReadsGroup(p: Cube, s: State, x: nat, i: nat, first: nat)
    requires Valid(p) && Inv(p, s) && At(p, s, x) && s.pc[x].st == Fold && 0 < i <= p.lg
    requires
      var g := CallNo(p.lg, s.pc[x].k);
      && Waited(s.pc[x]) >= Start(p.lg, g) + i
      && Own(KindOf(p, s.pc[x].k), p.lg, g, x, Dim(p.lg, s.pc[x].k)) == Leaf(x, g, 0)
      && Gathers(KindOf(p, s.pc[x].k), p.lg, i - 1)
    requires first == Base(x, i)
    ensures
      var g := CallNo(p.lg, s.pc[x].k);
      ReadAll(s.mem[x][HalfNo(p, g)], g, first, Pow2(i)) == Leaves(g, first, Pow2(i))
  {
    var g := CallNo(p.lg, s.pc[x].k);
    var m := s.mem[x][HalfNo(p, g)];
    forall j | 0 <= j < Pow2(i) ensures ReadAll(m, g, first, Pow2(i))[j] == Leaf(first + j, g, 0) {
      GroupRange(first + j, x, i);
      HasGroup(p, s, x, i, first + j);
    }
  }

  lemma ReadsPair(p: Cube, s: State, x: nat)
    requires Valid(p) && Inv(p, s) && At(p, s, x) && s.pc[x].st == Fold
    requires !Gathers(KindOf(p, s.pc[x].k), p.lg, Dim(p.lg, s.pc[x].k))
    ensures
      var (g, i, kind) := (CallNo(p.lg, s.pc[x].k), Dim(p.lg, s.pc[x].k), KindOf(p, s.pc[x].k));
      var m := s.mem[x][HalfNo(p, g)];
      Read(m, g, x) == Own(kind, p.lg, g, x, i) && Read(m, g, Flip(x, i)) == Own(kind, p.lg, g, Flip(x, i), i)
  {
    var i := Dim(p.lg, s.pc[x].k);
    RoundOf(p.lg, s.pc[x].k);
    assert OwnOk(p, s, x);
    HasArrived(p, s, x, i, Flip(x, i));
  }

  /** The reductions compute what the schedule says. */
  lemma ReducedIs(p: Cube, s: State, x: nat)
    requires Valid(p) && Inv(p, s) && At(p, s, x) && s.pc[x].st == Fold
    ensures
      var (g, i, kind) := (CallNo(p.lg, s.pc[x].k), Dim(p.lg, s.pc[x].k), KindOf(p, s.pc[x].k));
      var m := s.mem[x][HalfNo(p, g)];
      && (Reduces(kind, p.lg, i) ==> Reduced(kind, p.lg, m, g, x, i) == Own(kind, p.lg, g, x, i + 1))
      && (i + 1 == p.lg ==> Final(kind, p.lg, m, g, x, i) == Result(kind, p.lg, g, x))
  {
    var (g, i, kind) := (CallNo(p.lg, s.pc[x].k), Dim(p.lg, s.pc[x].k), KindOf(p, s.pc[x].k));
    RoundOf(p.lg, s.pc[x].k);
    if !Gathers(kind, p.lg, i) {
      ReadsPair(p, s, x);
    } else if kind == GatherHalf && Reduces(kind, p.lg, i) {
      ReadsGroup(p, s, x, i + 1, Base(x, i + 1));
    } else if kind == GatherAll && i + 1 == p.lg {
      WholeGroup(x, p.lg);
      ReadsGroup(p, s, x, p.lg, 0);
    }
  }

  // ---- preservation ------------------------------------------------------------------------

  lemma OwnStep(p: Cube, s: State, x: nat, c: nat)
    requires Valid(p) && Inv(p, s) && At(p, s, x) && Enabled(p, s, x) && c < Cards(p) && PcsOk(p, Apply(p, s, x))
    ensures OwnOk(p, Apply(p, s, x), c)
  {
    assert OwnOk(p, s, c);
    if c == x {
      OwnStepSelf(p, s, x);
    } else {
      OwnStepOther(p, s, x, c);
    }
  }

  lemma OwnStepSelf(p: Cube, s: State, x: nat)
    requires Valid(p) && Inv(p, s) && At(p, s, x) && Enabled(p, s, x) && PcsOk(p, Apply(p, s, x))
    ensures OwnOk(p, Apply(p, s, x), x)
  {
    var Pc(k, st) := s.pc[x];
    var (g, i) := (CallNo(p.lg, k), Dim(p.lg, k));
    assert OwnOk(p, s, x);
    NextRound(p.lg, k);
    if st == Fold { ReducedIs(p, s, x); }
    if st == Push { PartnerInRange(p, x, k); }
  }

  lemma OwnStepOther(p: Cube, s: State, x: nat, c: nat)
    requires Valid(p) && Inv(p, s) && At(p, s, x) && Enabled(p, s, x) && c < Cards(p) && c != x
      && PcsOk(p, Apply(p, s, x))
    ensures OwnOk(p, Apply(p, s, x), c)
  {
    var Pc(k, st) := s.pc[x];
    assert OwnOk(p, s, c);
    PartnerInRange(p, x, k);
    if st == Push && c == Partner(p, x, k) && s.pc[c].k < Rounds(p) && s.pc[c].st != Load {
      var h := CallNo(p.lg, s.pc[c].k);
      if HalfNo(p, h) == HalfNo(p, CallNo(p.lg, k)) {
        RoundOf(p.lg, s.pc[c].k);
        SameCall(p, s, x, c, c, h);
        OwnNotSent(p, x, c, k);
      }
    }
  }

  /** No card is sent its own block. */
  lemma OwnNotSent(p: Cube, x: nat, c: nat, k: nat)
    requires p.lg > 0 && x < Cards(p) && c == Partner(p, x, k) && k < Rounds(p)
    ensures !InPayload(KindOf(p, k), p.lg, x, Dim(p.lg, k), c)
  {
    var i := Dim(p.lg, k);
    PartnerInRange(p, x, k);
    if InPayload(KindOf(p, k), p.lg, x, i, c) {
      PayloadInGroup(KindOf(p, k), p.lg, x, i, c);
      ArrivalsApart(c, i, i, c);
    }
  }

  lemma ContentStep(p: Cube, s: State, x: nat, c: nat, k: nat, b: nat)
    requires Valid(p) && Inv(p, s) && At(p, s, x) && Enabled(p, s, x) && c < Cards(p) && PcsOk(p, Apply(p, s, x))
    ensures ContentOk(p, Apply(p, s, x), c, k, b)
  {
    assert ContentOk(p, s, c, k, b);
    PartnerInRange(p, c, k);
    PartnerInRange(p, x, s.pc[x].k);
    CountsStep(p, s.pc[x]);
    var y := Partner(p, c, k);
    if k < Rounds(p) && Pushed(Apply(p, s, x).pc[y]) > k && s.pc[c].k < Start(p.lg, CallNo(p.lg, k) + 1)
        && InPayload(KindOf(p, k), p.lg, y, Dim(p.lg, k), b) {
      if s.pc[x].st == Push && c == Partner(p, x, s.pc[x].k) {
        PushArrives(p, s, x, c, k, b);
      } else if c == x && s.pc[x].st != Push {
        OwnWriteSpares(p, s, x, k, b);
      }
    }
  }

  /** What a card writes itself is its own block only, in the call at hand. */
  lemma OwnWriteSpares(p: Cube, s: State, x: nat, k: nat, b: nat)
    requires Valid(p) && Inv(p, s) && At(p, s, x) && Enabled(p, s, x) && PcsOk(p, Apply(p, s, x)) && s.pc[x].st != Push
    ensures ContentOk(p, Apply(p, s, x), x, k, b)
  {
    assert ContentOk(p, s, x, k, b);
    PartnerInRange(p, x, k);
    var y := Partner(p, x, k);
    var h := CallNo(p.lg, k);
    if k < Rounds(p) && Pushed(s.pc[y]) > k && s.pc[x].k < Start(p.lg, h + 1)
        && InPayload(KindOf(p, k), p.lg, y, Dim(p.lg, k), b) {
      if HalfNo(p, h) == HalfNo(p, CallNo(p.lg, s.pc[x].k)) {
        RoundOf(p.lg, k);
        SameCall(p, s, x, x, y, h);
        PayloadInGroup(KindOf(p, k), p.lg, y, Dim(p.lg, k), b);
        ArrivalsApart(x, Dim(p.lg, k), Dim(p.lg, k), b);
      }
    }
  }

  /** A push brings the blocks of its round and spares those of other rounds. */
  lemma PushArrives(p: Cube, s: State, x: nat, c: nat, k: nat, b: nat)
    requires Valid(p) && Inv(p, s) && At(p, s, x) && Enabled(p, s, x) && c < Cards(p) && PcsOk(p, Apply(p, s, x))
    requires s.pc[x].st == Push && c == Partner(p, x, s.pc[x].k)
    ensures ContentOk(p, Apply(p, s, x), c, k, b)
  {
    var n := s.pc[x].k;
    var (g, h) := (CallNo(p.lg, n), CallNo(p.lg, k));
    assert ContentOk(p, s, c, k, b);
    PartnerInRange(p, c, k);
    PartnerInRange(p, x, n);
    CountsStep(p, s.pc[x]);
    var y := Partner(p, c, k);
    if k < Rounds(p) && Pushed(Apply(p, s, x).pc[y]) > k && s.pc[c].k < Start(p.lg, h + 1)
        && InPayload(KindOf(p, k), p.lg, y, Dim(p.lg, k), b) {
      if k == n {
        SendsVal(p, s, x, b);
      } else if HalfNo(p, h) == HalfNo(p, g) {
        PushSpares(p, s, x, c, k, b);
      }
    }
  }

  lemma PushSpares(p: Cube, s: State, x: nat, c: nat, k: nat, b: nat)
    requires Valid(p) && Inv(p, s) && At(p, s, x) && Enabled(p, s, x) && c < Cards(p) && PcsOk(p, Apply(p, s, x))
    requires s.pc[x].st == Push && c == Partner(p, x, s.pc[x].k) && k != s.pc[x].k && k < Rounds(p)
    requires HalfNo(p, CallNo(p.lg, k)) == HalfNo(p, CallNo(p.lg, s.pc[x].k))
    ensures ContentOk(p, Apply(p, s, x), c, k, b)
  {
    var n := s.pc[x].k;
    var (g, h) := (CallNo(p.lg, n), CallNo(p.lg, k));
    assert ContentOk(p, s, c, k, b);
    PartnerInRange(p, c, k);
    PartnerInRange(p, x, n);
    CountsStep(p, s.pc[x]);
    var y := Partner(p, c, k);
    if Pushed(s.pc[y]) > k && s.pc[c].k < Start(p.lg, h + 1) && InPayload(KindOf(p, k), p.lg, y, Dim(p.lg, k), b) {
      RoundOf(p.lg, k);
      RoundOf(p.lg, n);
      SameCall(p, s, x, c, y, h);
      PayloadInGroup(KindOf(p, k), p.lg, y, Dim(p.lg, k), b);
      ArrivalsApart(c, Dim(p.lg, k), Dim(p.lg, n), b);
      if InPayload(KindOf(p, n), p.lg, x, Dim(p.lg, n), b) { PayloadInGroup(KindOf(p, n), p.lg, x, Dim(p.lg, n), b); }
    }
  }

  lemma UserStep(p: Cube, s: State, x: nat, c: nat, g: nat)
    requires Valid(p) && Inv(p, s) && At(p, s, x) && Enabled(p, s, x) && c < Cards(p) && PcsOk(p, Apply(p, s, x))
    ensures UserOk(p, Apply(p, s, x), c, g)
  {
    assert UserOk(p, s, c, g);
    if c == x && s.pc[x].st == Fold {
      var k := s.pc[x].k;
      ReducedIs(p, s, x);
      RoundOf(p.lg, k);
      var h := CallNo(p.lg, k);
      StartGrows(p.lg, g + 1, h);
      StartGrows(p.lg, h + 2, g + 1);
    }
  }

  lemma StepInv(p: Cube, s: State, x: nat)
    requires Valid(p) && Inv(p, s) && At(p, s, x) && Enabled(p, s, x)
    ensures Inv(p, Apply(p, s, x))
  {
    var s' := Apply(p, s, x);
    ControlStep(p, s, x);
    forall c | 0 <= c < Cards(p) ensures OwnOk(p, s', c) { OwnStep(p, s, x, c); }
    forall c: nat, k: nat, b: nat | c < Cards(p) ensures ContentOk(p, s', c, k, b) { ContentStep(p, s, x, c, k, b); }
    forall c: nat, g: nat | c < Cards(p) ensures UserOk(p, s', c, g) { UserStep(p, s, x, c, g); }
  }
}
