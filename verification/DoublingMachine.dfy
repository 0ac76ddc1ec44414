/** All cards of the recursive-doubling exchange, over any sequence of small AllReduces
    with any of the schedules, in any interleaving.

    Rounds are numbered through: round k of a card belongs to call CallNo(k) and has
    stride 2 to the Dim(k).  The flag of round k is the k-th value of peercnt and goes to
    flag slot `peercnt % DEV_NUM` of the partner. */
module DoublingMachine {
  import opened Hypercube
  import opened Terms
  import Doubling

  /** Pow2(lg) cards; the schedules of all calls; peercnt and graph_step_no at the start. */
  datatype Cube = Cube(lg: nat, kinds: seq<Doubling.Kind>, peercnt: nat, stepNo: nat)

  /** More flag slots than bits in a card number: up to 8 cards with 4 slots. */
  ghost predicate Valid(p: Cube) {
    && 1 <= p.lg < Doubling.DEV_NUM
    && forall g :: 0 <= g < |p.kinds| ==> p.kinds[g] == Doubling.GatherHalf ==> p.lg >= 2
  }

  function Cards(p: Cube): nat {
    Pow2(p.lg)
  }

  function Dim(lg: nat, k: nat): (i: nat)
    requires lg > 0
    ensures i < lg
  {
    if k < lg then k else Dim(lg, k - lg)
  }

  function CallNo(lg: nat, k: nat): nat
    requires lg > 0
  {
    if k < lg then 0 else CallNo(lg, k - lg) + 1
  }

  /** First round of call g. */
  function Start(lg: nat, g: nat): nat {
    if g == 0 then 0 else Start(lg, g - 1) + lg
  }

  lemma {:induction false} RoundOf(lg: nat, k: nat)
    requires lg > 0
    ensures k == Start(lg, CallNo(lg, k)) + Dim(lg, k)
    decreases k
  {
    if k >= lg { RoundOf(lg, k - lg); }
  }

  lemma {:induction false} RoundIs(lg: nat, g: nat, i: nat)
    requires i < lg
    ensures CallNo(lg, Start(lg, g) + i) == g && Dim(lg, Start(lg, g) + i) == i
    decreases g
  {
    if g > 0 { RoundIs(lg, g - 1, i); }
  }

  lemma {:induction false} NextRound(lg: nat, k: nat)
    requires lg > 0
    ensures Dim(lg, k + 1) == if Dim(lg, k) + 1 < lg then Dim(lg, k) + 1 else 0
    ensures CallNo(lg, k + 1) == CallNo(lg, k) + if Dim(lg, k) + 1 < lg then 0 else 1
    decreases k
  {
    if k >= lg { NextRound(lg, k - lg); }
  }

  lemma {:induction false} StartMono(lg: nat, g: nat, h: nat)
    requires g < h
    ensures Start(lg, g) + lg <= Start(lg, h)
    decreases h
  {
    if g + 1 < h { StartMono(lg, g, h - 1); }
  }

  lemma StartGrows(lg: nat, g: nat, h: nat)
    ensures g <= h ==> Start(lg, g) <= Start(lg, h)
  {
    if g < h { StartMono(lg, g, h); }
  }

  // ---- the program of a card ---------------------------------------------------------

  datatype Stage = Load | Push | Flag | Await | Fold

  datatype Pc = Pc(k: nat, st: Stage)

  function Rounds(p: Cube): nat {
    Start(p.lg, |p.kinds|)
  }

  predicate PcOk(p: Cube, pc: Pc)
    requires p.lg > 0
  {
    if pc.k < Rounds(p) then pc.st == Load ==> Dim(p.lg, pc.k) == 0 else pc == Pc(Rounds(p), Load)
  }

  function Advance(p: Cube, pc: Pc): Pc
    requires p.lg > 0
  {
    match pc.st
    case Load => Pc(pc.k, Push)
    case Push => Pc(pc.k, Flag)
    case Flag => Pc(pc.k, Await)
    case Await => Pc(pc.k, Fold)
    case Fold => Pc(pc.k + 1, if Dim(p.lg, pc.k + 1) == 0 then Load else Push)
  }

  lemma AdvanceOk(p: Cube, pc: Pc)
    requires p.lg > 0 && pc.k < Rounds(p) && PcOk(p, pc)
    ensures PcOk(p, Advance(p, pc))
  {
    if pc.k + 1 == Rounds(p) { RoundIs(p.lg, |p.kinds|, 0); }
  }

  /** The kind of the call of round k. */
  lemma CallInRange(p: Cube, k: nat)
    requires p.lg > 0 && k < Rounds(p)
    ensures CallNo(p.lg, k) < |p.kinds|
  {
    RoundOf(p.lg, k);
    StartGrows(p.lg, |p.kinds|, CallNo(p.lg, k));
  }

  function KindOf(p: Cube, k: nat): Doubling.Kind
    requires p.lg > 0 && k < Rounds(p)
  {
    CallInRange(p, k);
    p.kinds[CallNo(p.lg, k)]
  }

  function Sent(pc: Pc): nat {
    pc.k + if pc.st == Await || pc.st == Fold then 1 else 0
  }

  function Pushed(pc: Pc): nat {
    pc.k + if pc.st == Flag || pc.st == Await || pc.st == Fold then 1 else 0
  }

  function Waited(pc: Pc): nat {
    pc.k + if pc.st == Fold then 1 else 0
  }

  // ---- small buffers --------------------------------------------------------------------

  /** One half of a card's small buffer.  Calls may cut it into blocks of different sizes,
      so a write of one call is taken to destroy whatever another call left there. */
  datatype Half = Half(call: nat, blocks: map<nat, Term>)

  function Write(m: Half, g: nat, bs: map<nat, Term>): Half {
    Half(g, if m.call == g then m.blocks + bs else bs)
  }

  function Read(m: Half, g: nat, b: nat): Term {
    if m.call == g && b in m.blocks then m.blocks[b] else Junk
  }

  function HalfNo(p: Cube, g: nat): (h: nat)
    ensures h < 2
  {
    (p.stepNo + g) % 2
  }

  datatype State = State(pc: seq<Pc>, slot: seq<seq<nat>>, mem: seq<seq<Half>>, user: seq<map<nat, Term>>)

  predicate Shape(p: Cube, s: State) {
    && |s.pc| == |s.slot| == |s.mem| == |s.user| == Cards(p)
    && forall c :: 0 <= c < Cards(p) ==> |s.slot[c]| == Doubling.DEV_NUM && |s.mem[c]| == 2
  }

  ghost predicate At(p: Cube, s: State, c: nat)
    requires p.lg > 0
  {
    Shape(p, s) && c < Cards(p) && s.pc[c].k < Rounds(p) && PcOk(p, s.pc[c])
  }

  function SlotNo(p: Cube, k: nat): (q: nat)
    ensures q < Doubling.DEV_NUM
  {
    (p.peercnt + k + 1) % Doubling.DEV_NUM
  }

  predicate Enabled(p: Cube, s: State, c: nat)
    requires p.lg > 0 && At(p, s, c)
  {
    var Pc(k, st) := s.pc[c];
    st == Await ==> s.slot[c][SlotNo(p, k)] >= p.peercnt + k + 1
  }

  // ---- the host's operations --------------------------------------------------------------------

  /** The call of round k, as the host sees it. */
  predicate IsCall(p: Cube, k: nat, call: Doubling.Call)
    requires p.lg > 0 && k < Rounds(p)
  {
    && call.kind == KindOf(p, k) && call.half == HalfNo(p, CallNo(p.lg, k))
    && call.peercnt == p.peercnt + Start(p.lg, CallNo(p.lg, k))
  }

  /** What one stage of card c has in the graph; the load is the kernel at its head, which
      tcclSmallSizeAllreduce puts there with the value of peercnt. */
  function StageOps(p: Cube, c: nat, pc: Pc, call: Doubling.Call): seq<Doubling.Op>
    requires p.lg > 0 && pc.k < Rounds(p)
  {
    var (i, kind) := (Dim(p.lg, pc.k), KindOf(p, pc.k));
    match pc.st
    case Load => [Doubling.LoadOwn(c, p.peercnt + Start(p.lg, CallNo(p.lg, pc.k)))]
    case Push => [Doubling.P2p(Doubling.Bytes(call, Doubling.First(kind, p.lg, c, i), Doubling.Width(kind, p.lg, i)),
        Flip(c, i))]
    case Flag => [Doubling.P2pFlag(i, Flip(c, i), SlotNo(p, pc.k))]
    case Await => [Doubling.WaitGeq(SlotNo(p, pc.k), p.peercnt + pc.k + 1)]
    case Fold => Doubling.FoldOps(kind, p.lg, c, i)
  }

  function RoundStages(p: Cube, c: nat, k: nat, call: Doubling.Call): seq<Doubling.Op>
    requires p.lg > 0 && k < Rounds(p)
  {
    StageOps(p, c, Pc(k, Push), call) + StageOps(p, c, Pc(k, Flag), call) + StageOps(p, c, Pc(k, Await), call)
    + StageOps(p, c, Pc(k, Fold), call)
  }

  /** The rounds that the host emits for call g are the stages of the machine, with the values
      and slots that its waits test. */
  lemma CallIsStages(p: Cube, c: nat, g: nat, call: Doubling.Call, i: nat)
    requires p.lg > 0 && g < |p.kinds| && i < p.lg && Start(p.lg, g) + i < Rounds(p)
    requires IsCall(p, Start(p.lg, g) + i, call)
    ensures Doubling.RoundsOps(p.lg, call, c, i + 1) ==
            Doubling.RoundsOps(p.lg, call, c, i) + RoundStages(p, c, Start(p.lg, g) + i, call)
  {
    RoundIs(p.lg, g, i);
    RoundParts(p, c, Start(p.lg, g) + i, call);
    assert Doubling.RoundsOps(p.lg, call, c, i + 1) ==
           Doubling.RoundsOps(p.lg, call, c, i) + Doubling.ExchangeOps(p.lg, call, c, i)
           + Doubling.FoldOps(call.kind, p.lg, c, i);
  }

  lemma RoundParts(p: Cube, c: nat, k: nat, call: Doubling.Call)
    requires p.lg > 0 && k < Rounds(p) && IsCall(p, k, call)
    ensures RoundStages(p, c, k, call) ==
            Doubling.ExchangeOps(p.lg, call, c, Dim(p.lg, k)) + Doubling.FoldOps(call.kind, p.lg, c, Dim(p.lg, k))
  {
    RoundOf(p.lg, k);
  }

  function ReadAll(m: Half, g: nat, first: nat, count: nat): (xs: seq<Term>)
    ensures |xs| == count && forall j :: 0 <= j < count ==> xs[j] == Read(m, g, first + j)
  {
    seq(count, j requires 0 <= j < count => Read(m, g, first + j))
  }

  /** The blocks that card c sends in a round, as they are in `m`. */
  function Payload(m: Half, g: nat, first: nat, count: nat): (bs: map<nat, Term>)
    ensures forall b :: b in bs <==> first <= b < first + count
    ensures forall b :: b in bs ==> bs[b] == Read(m, g, b)
  {
    map b | first <= b < first + count :: b := Read(m, g, b)
  }

  /** Value that the reduction after round i leaves in the card's own block, if there is one. */
  function Reduced(kind: Doubling.Kind, lg: nat, m: Half, g: nat, c: nat, i: nat): (r: Term) {
    if kind == Doubling.GatherHalf then FoldTerms(ReadAll(m, g, Base(c, i + 1), Pow2(i + 1)))
    else Node(Read(m, g, c), Read(m, g, Flip(c, i)))
  }

  predicate Reduces(kind: Doubling.Kind, lg: nat, i: nat) {
    (kind == Doubling.GatherHalf && i + 2 == lg) || (kind == Doubling.EachRound && i + 1 < lg)
  }

  /** What the last reduction hands to the users. */
  function Final(kind: Doubling.Kind, lg: nat, m: Half, g: nat, c: nat, i: nat): Term {
    if kind == Doubling.GatherAll then FoldTerms(ReadAll(m, g, 0, Pow2(lg)))
    else Node(Read(m, g, c), Read(m, g, Flip(c, i)))
  }

  function SetSlot(flags: seq<nat>, q: nat, v: nat): seq<nat>
    requires q < |flags|
  {
    flags[q := v]
  }

  function SlotAfter(p: Cube, s: State, c: nat): seq<seq<nat>>
    requires p.lg > 0 && At(p, s, c)
  {
    var Pc(k, st) := s.pc[c];
    var to := Flip(c, Dim(p.lg, k));
    if st == Flag && to < Cards(p) then s.slot[to := SetSlot(s.slot[to], SlotNo(p, k), p.peercnt + k + 1)] else s.slot
  }

  function SetHalf(halves: seq<Half>, h: nat, m: Half): seq<Half>
    requires h < |halves|
  {
    halves[h := m]
  }

  function MemAfter(p: Cube, s: State, c: nat): seq<seq<Half>>
    requires p.lg > 0 && At(p, s, c)
  {
    var Pc(k, st) := s.pc[c];
    var (i, g, kind) := (Dim(p.lg, k), CallNo(p.lg, k), KindOf(p, k));
    var (h, to) := (HalfNo(p, g), Flip(c, i));
    var m := s.mem[c][h];
    match st
    case Load => s.mem[c := SetHalf(s.mem[c], h, Write(m, g, map[c := Leaf(c, g, 0)]))]
    case Push =>
      if to >= Cards(p) then s.mem
      else
        var bs := Payload(m, g, Doubling.First(kind, p.lg, c, i), Doubling.Width(kind, p.lg, i));
        s.mem[to := SetHalf(s.mem[to], h, Write(s.mem[to][h], g, bs))]
    case Fold =>
      if Reduces(kind, p.lg, i) then
        s.mem[c := SetHalf(s.mem[c], h, Write(m, g, map[c := Reduced(kind, p.lg, m, g, c, i)]))]
      else s.mem
    case _ => s.mem
  }

  function UserAfter(p: Cube, s: State, c: nat): seq<map<nat, Term>>
    requires p.lg > 0 && At(p, s, c)
  {
    var Pc(k, st) := s.pc[c];
    var (i, g, kind) := (Dim(p.lg, k), CallNo(p.lg, k), KindOf(p, k));
    if st == Fold && i + 1 == p.lg then
      s.user[c := s.user[c][g := Final(kind, p.lg, s.mem[c][HalfNo(p, g)], g, c, i)]]
    else s.user
  }

  function Apply(p: Cube, s: State, c: nat): State
    requires p.lg > 0 && At(p, s, c)
  {
    State(s.pc[c := Advance(p, s.pc[c])], SlotAfter(p, s, c), MemAfter(p, s, c), UserAfter(p, s, c))
  }

  /** Any flags that the counter has reached, any buffer contents of earlier calls. */
  ghost predicate Init(p: Cube, s: State) {
    && Shape(p, s)
    && (forall c :: 0 <= c < Cards(p) ==> s.pc[c] == Pc(0, Load))
    && (forall c, q :: 0 <= c < Cards(p) && 0 <= q < Doubling.DEV_NUM ==> s.slot[c][q] <= p.peercnt)
  }

  // ---- flags: invariant -------------------------------------------------------------------

  ghost predicate PcsOk(p: Cube, s: State)
    requires p.lg > 0
  {
    Shape(p, s) && forall c :: 0 <= c < Cards(p) ==> PcOk(p, s.pc[c])
  }

  function Partner(p: Cube, c: nat, k: nat): (d: nat)
    requires p.lg > 0
  {
    Flip(c, Dim(p.lg, k))
  }

  lemma PartnerInRange(p: Cube, c: nat, k: nat)
    requires p.lg > 0 && c < Cards(p)
    ensures Partner(p, c, k) < Cards(p) && Partner(p, c, k) != c && Partner(p, Partner(p, c, k), k) == c
  {
    FlipInRange(c, Dim(p.lg, k), p.lg);
    FlipBack(c, Dim(p.lg, k));
  }

  /** The partner of round k has sent its flag to c. */
  ghost predicate Told(p: Cube, s: State, c: nat, k: nat)
    requires p.lg > 0 && PcsOk(p, s) && c < Cards(p)
  {
    PartnerInRange(p, c, k);
    Sent(s.pc[Partner(p, c, k)]) > k
  }

  /** Nobody gets past the wait of a round before the partner has sent its flag. */
  ghost predicate WaitOk(p: Cube, s: State, c: nat, k: nat)
    requires p.lg > 0 && PcsOk(p, s) && c < Cards(p)
  {
    Waited(s.pc[c]) > k ==> Told(p, s, c, k)
  }

  /** A slot shows the last flag sent to it. */
  ghost predicate SlotOk(p: Cube, s: State, c: nat, k: nat)
    requires p.lg > 0 && PcsOk(p, s) && c < Cards(p)
  {
    && (Told(p, s, c, k) && !Told(p, s, c, k + Doubling.DEV_NUM) ==> s.slot[c][SlotNo(p, k)] == p.peercnt + k + 1)
    && (!Told(p, s, c, k) && k < Doubling.DEV_NUM ==> s.slot[c][SlotNo(p, k)] <= p.peercnt)
  }

  ghost predicate Control(p: Cube, s: State)
    requires p.lg > 0
  {
    && PcsOk(p, s)
    && (forall c: nat, k: nat :: c < Cards(p) ==> WaitOk(p, s, c, k))
    && (forall c: nat, k: nat :: c < Cards(p) ==> SlotOk(p, s, c, k))
  }

  lemma InitControl(p: Cube, s: State)
    requires Valid(p) && Init(p, s)
    ensures Control(p, s)
  {
    assert PcsOk(p, s) by { if Rounds(p) > 0 { RoundIs(p.lg, 0, 0); } }
    forall c: nat, k: nat | c < Cards(p) ensures WaitOk(p, s, c, k) && SlotOk(p, s, c, k) {
      PartnerInRange(p, c, k);
    }
  }

  // ---- the cone: what one card's waits say about all cards -----------------------------------

  /** The bits exchanged in rounds k..k+j-1. */
  function Dims(lg: nat, k: nat, j: nat): set<nat>
    requires lg > 0
  {
    if j == 0 then {} else Dims(lg, k, j - 1) + {Dim(lg, k + j - 1)}
  }

  lemma {:induction false} DimPlus(lg: nat, k: nat, t: nat)
    requires lg > 0 && t < lg
    ensures Dim(lg, k + t) == if Dim(lg, k) + t < lg then Dim(lg, k) + t else Dim(lg, k) + t - lg
    decreases t
  {
    if t > 0 {
      DimPlus(lg, k, t - 1);
      NextRound(lg, k + t - 1);
    }
  }

  lemma {:induction false} InDims(lg: nat, k: nat, t: nat, j: nat)
    requires lg > 0 && t < j
    ensures Dim(lg, k + t) in Dims(lg, k, j)
    decreases j
  {
    if t < j - 1 { InDims(lg, k, t, j - 1); }
  }

  /** Any lg rounds in a row exchange every bit. */
  lemma AllDims(lg: nat, k: nat, i: nat)
    requires i < lg
    ensures i in Dims(lg, k, lg)
  {
    var r := Dim(lg, k);
    var t := if i >= r then i - r else i + lg - r;
    DimPlus(lg, k, t);
    InDims(lg, k, t, lg);
  }

  ghost predicate AgreeOutside(p: Cube, c: nat, d: nat, k: nat, j: nat)
    requires p.lg > 0
  {
    forall i :: 0 <= i < p.lg && i !in Dims(p.lg, k, j) ==> Bit(c, i) == Bit(d, i)
  }

  /** A card that has got past the waits of rounds k..k+j-1 proves that every card it can
      reach by flipping the bits of those rounds has sent its flag of round k. */
  lemma {:induction false} Cone(p: Cube, s: State, c: nat, d: nat, k: nat, j: nat)
    requires p.lg > 0 && PcsOk(p, s) && c < Cards(p) && d < Cards(p) && 1 <= j
    requires forall c: nat, k: nat :: c < Cards(p) ==> WaitOk(p, s, c, k)
    requires Waited(s.pc[c]) >= k + j && AgreeOutside(p, c, d, k, j)
    ensures Sent(s.pc[d]) > k
    decreases j
  {
    var last := k + j - 1;
    var i := Dim(p.lg, last);
    PartnerInRange(p, c, last);
    assert WaitOk(p, s, c, last);
    var e := if Bit(c, i) == Bit(d, i) then c else Partner(p, c, last);
    assert Sent(s.pc[e]) > last;
    forall b | 0 <= b < p.lg && b !in Dims(p.lg, k, j - 1) ensures Bit(e, b) == Bit(d, b) {
      FlipBits(c, i, b);
      BitRange(c, b);
      BitRange(d, b);
    }
    if j > 1 {
      Cone(p, s, e, d, k, j - 1);
    } else {
      SameBits(e, d, p.lg);
    }
  }

  /** A card past the waits of lg rounds: all cards have sent the flag of the first of them. */
  lemma Everyone(p: Cube, s: State, c: nat, d: nat, k: nat)
    requires p.lg > 0 && PcsOk(p, s) && c < Cards(p) && d < Cards(p)
    requires forall c: nat, k: nat :: c < Cards(p) ==> WaitOk(p, s, c, k)
    requires Waited(s.pc[c]) >= k + p.lg
    ensures Sent(s.pc[d]) > k
  {
    forall i: nat | i < p.lg ensures i in Dims(p.lg, k, p.lg) {
      AllDims(p.lg, k, i);
    }
    Cone(p, s, c, d, k, p.lg);
  }

  /** No card sends flag k + DEV_NUM before every card has got past the wait of round k. */
  lemma NoLap(p: Cube, s: State, c: nat, d: nat, k: nat)
    requires Valid(p) && PcsOk(p, s) && c < Cards(p) && d < Cards(p)
    requires forall c: nat, k: nat :: c < Cards(p) ==> WaitOk(p, s, c, k)
    requires Sent(s.pc[c]) > k + Doubling.DEV_NUM || Waited(s.pc[c]) >= k + Doubling.DEV_NUM
    ensures Sent(s.pc[d]) > k + 1 && Waited(s.pc[d]) > k
  {
    Everyone(p, s, c, d, k + 1);
  }

  /** The wait of a round ends exactly when the partner has sent the flag of this round;
      the flag of a later round never ends it. */
  lemma WaitExact(p: Cube, s: State, c: nat)
    requires Valid(p) && Control(p, s) && At(p, s, c) && s.pc[c].st == Await
    ensures Enabled(p, s, c) <==> Told(p, s, c, s.pc[c].k)
    ensures Enabled(p, s, c) ==> s.slot[c][SlotNo(p, s.pc[c].k)] == p.peercnt + s.pc[c].k + 1
  {
    var k := s.pc[c].k;
    assert SlotOk(p, s, c, k);
    PartnerInRange(p, c, k);
    PartnerInRange(p, c, k + Doubling.DEV_NUM);
    if Told(p, s, c, k + Doubling.DEV_NUM) { NoLap(p, s, Partner(p, c, k + Doubling.DEV_NUM), c, k); }
    if k >= Doubling.DEV_NUM {
      assert SlotOk(p, s, c, k - Doubling.DEV_NUM) && WaitOk(p, s, c, k - Doubling.DEV_NUM);
      SameSlot(p, k - Doubling.DEV_NUM);
    }
  }

  lemma SameSlot(p: Cube, k: nat)
    ensures SlotNo(p, k + Doubling.DEV_NUM) == SlotNo(p, k)
  {
  }

  // ---- flags: preservation -----------------------------------------------------------------

  lemma ShapeStep(p: Cube, s: State, c: nat)
    requires Valid(p) && PcsOk(p, s) && At(p, s, c)
    ensures PcsOk(p, Apply(p, s, c))
  {
    AdvanceOk(p, s.pc[c]);
  }

  lemma CountsStep(p: Cube, pc: Pc)
    requires p.lg > 0
    ensures Sent(Advance(p, pc)) == Sent(pc) + if pc.st == Flag then 1 else 0
    ensures Waited(Advance(p, pc)) == Waited(pc) + if pc.st == Await then 1 else 0
    ensures Pushed(Advance(p, pc)) == Pushed(pc) + if pc.st == Push then 1 else 0
  {
  }

  lemma WaitStep(p: Cube, s: State, c: nat, d: nat, k: nat)
    requires Valid(p) && Control(p, s) && At(p, s, c) && Enabled(p, s, c) && PcsOk(p, Apply(p, s, c)) && d < Cards(p)
    ensures WaitOk(p, Apply(p, s, c), d, k)
  {
    assert WaitOk(p, s, d, k);
    PartnerInRange(p, d, k);
    CountsStep(p, s.pc[c]);
    if d == c && s.pc[c].st == Await { WaitExact(p, s, c); }
  }

  /** Told changes only when the partner sends this very flag. */
  lemma ToldStep(p: Cube, s: State, c: nat, d: nat, k: nat)
    requires Valid(p) && PcsOk(p, s) && At(p, s, c) && PcsOk(p, Apply(p, s, c)) && d < Cards(p)
    ensures Told(p, Apply(p, s, c), d, k) <==>
            Told(p, s, d, k) || (s.pc[c].st == Flag && s.pc[c].k == k && d == Partner(p, c, k))
  {
    PartnerInRange(p, d, k);
    PartnerInRange(p, c, k);
    CountsStep(p, s.pc[c]);
  }

  lemma SlotStep(p: Cube, s: State, c: nat, d: nat, k: nat)
    requires Valid(p) && Control(p, s) && At(p, s, c) && Enabled(p, s, c) && PcsOk(p, Apply(p, s, c)) && d < Cards(p)
    ensures SlotOk(p, Apply(p, s, c), d, k)
  {
    var s' := Apply(p, s, c);
    assert SlotOk(p, s, d, k);
    ToldStep(p, s, c, d, k);
    ToldStep(p, s, c, d, k + Doubling.DEV_NUM);
    if s.pc[c].st == Flag && d == Partner(p, c, s.pc[c].k) {
      FlagSent(p, s, c, k);
    }
  }

  /** When card c sends flag n, its partner d has been told all rounds DEV_NUM before and
      none DEV_NUM after. */
  lemma ToldAround(p: Cube, s: State, c: nat, d: nat, k: nat)
    requires Valid(p) && Control(p, s) && At(p, s, c) && d < Cards(p) && s.pc[c].st == Flag
    ensures k + Doubling.DEV_NUM <= s.pc[c].k ==> Told(p, s, d, k)
    ensures s.pc[c].k + Doubling.DEV_NUM <= k ==> !Told(p, s, d, k)
  {
    var n := s.pc[c].k;
    PartnerInRange(p, d, k);
    if k + Doubling.DEV_NUM <= n { NoLap(p, s, c, Partner(p, d, k), n - Doubling.DEV_NUM); }
    if n + Doubling.DEV_NUM <= k && Told(p, s, d, k) { NoLap(p, s, Partner(p, d, k), c, n); }
  }

  /** Flag n belongs into its slot, and no flag that d still needs was there. */
  lemma FlagSent(p: Cube, s: State, c: nat, k: nat)
    requires Valid(p) && Control(p, s) && At(p, s, c) && Enabled(p, s, c) && PcsOk(p, Apply(p, s, c))
    requires s.pc[c].st == Flag
    ensures Partner(p, c, s.pc[c].k) < Cards(p) && SlotOk(p, Apply(p, s, c), Partner(p, c, s.pc[c].k), k)
  {
    var (s', n) := (Apply(p, s, c), s.pc[c].k);
    var d := Partner(p, c, n);
    PartnerInRange(p, c, n);
    assert SlotOk(p, s, d, k);
    ToldStep(p, s, c, d, k);
    ToldStep(p, s, c, d, k + Doubling.DEV_NUM);
    if SlotNo(p, k) == SlotNo(p, n) {
      SlotGap(p, k, n);
      SameSlot(p, k);
      SlotGap(p, k + Doubling.DEV_NUM, n);
      ToldAround(p, s, c, d, k);
      ToldAround(p, s, c, d, k + Doubling.DEV_NUM);
    }
  }

  lemma SlotGap(p: Cube, k: nat, n: nat)
    requires SlotNo(p, k) == SlotNo(p, n)
    ensures k == n || k + Doubling.DEV_NUM <= n || n + Doubling.DEV_NUM <= k
  {
  }

  lemma ControlStep(p: Cube, s: State, c: nat)
    requires Valid(p) && Control(p, s) && At(p, s, c) && Enabled(p, s, c)
    ensures Control(p, Apply(p, s, c))
  {
    var s' := Apply(p, s, c);
    ShapeStep(p, s, c);
    forall d: nat, k: nat | d < Cards(p) ensures WaitOk(p, s', d, k) && SlotOk(p, s', d, k) {
      WaitStep(p, s, c, d, k);
      SlotStep(p, s, c, d, k);
    }
  }
}
