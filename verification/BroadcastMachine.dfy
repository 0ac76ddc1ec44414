/** All cards of a broadcast chain, over any sequence of calls with any roots, in any
    interleaving.

    `data[c]` and `ready[c]` are flags 0 and 1 of card c, `ack[c]` its acknowledgement
    flags; `user[c]` is what it has copied to its users, by call and step. */
module BroadcastMachine {
  import Arith
  import opened Cycle
  import opened Memory
  import opened Terms
  import opened BroadcastChain

  datatype State = State(
    pc: seq<Pc>, data: seq<nat>, ready: seq<nat>, ack: seq<seq<nat>>,
    inb: seq<Mem>, out: seq<Mem>, user: seq<map<(nat, nat), Term>>)

  predicate Shape(p: Chain, s: State) {
    && |s.pc| == |s.data| == |s.ready| == |s.ack| == |s.inb| == |s.out| == |s.user| == p.n
    && forall c :: 0 <= c < p.n ==> |s.ack[c]| == ACK_FLAGS
  }

  /** Steps of call g. */
  function StepsOf(p: Chain, g: nat): nat
    requires Valid(p) && g < |p.calls|
  {
    Steps(p.calls[g])
  }

  /** Steps of all calls before g: how far the counters have moved. */
  function Sum(p: Chain, g: nat): nat
    requires Valid(p) && g <= |p.calls|
  {
    if g == 0 then 0 else Sum(p, g - 1) + StepsOf(p, g - 1)
  }

  lemma {:induction false} SumMono(p: Chain, g: nat, h: nat)
    requires Valid(p) && g <= h <= |p.calls|
    ensures Sum(p, g) <= Sum(p, h)
    decreases h
  {
    if g < h { SumMono(p, g, h - 1); }
  }

  predicate Opening(st: Stage) {
    st.SetReady? || st.AwaitReady?
  }

  ghost predicate PcOk(p: Chain, pc: Pc)
    requires Valid(p)
  {
    if pc.g < |p.calls| then (if Opening(pc.st) then pc.m == 0 else pc.m < StepsOf(p, pc.g))
    else pc == Pc(|p.calls|, 0, SetReady)
  }

  function StepFrom(p: Chain, g: nat, m: nat): (pc: Pc)
    requires Valid(p) && g < |p.calls| && m <= StepsOf(p, g)
    ensures PcOk(p, pc)
  {
    if m < StepsOf(p, g) then Pc(g, m, Take) else Pc(g + 1, 0, SetReady)
  }

  function Advance(p: Chain, pc: Pc): (pc': Pc)
    requires Valid(p) && pc.g < |p.calls| && PcOk(p, pc)
    ensures PcOk(p, pc')
  {
    match pc.st
    case SetReady => Pc(pc.g, 0, AwaitReady)
    case AwaitReady => StepFrom(p, pc.g, 0)
    case Take => Pc(pc.g, pc.m, AwaitAck)
    case AwaitAck => Pc(pc.g, pc.m, Push)
    case Push => Pc(pc.g, pc.m, Flag)
    case Flag => Pc(pc.g, pc.m, Copy)
    case Copy => Pc(pc.g, pc.m, Ack)
    case Ack => StepFrom(p, pc.g, pc.m + 1)
  }

  ghost predicate At(p: Chain, s: State, c: nat)
    requires Valid(p)
  {
    Shape(p, s) && c < p.n && s.pc[c].g < |p.calls| && PcOk(p, s.pc[c])
  }

  /** The operation a card is about to execute. */
  function OpAt(p: Chain, pc: Pc, c: nat): Op
    requires Valid(p) && pc.g < |p.calls| && c < p.n
  {
    var call := p.calls[pc.g];
    SlotsPositive(p.n, call);
    match pc.st
    case SetReady => SendFlag(1, Prev(p.n, c), p.prevcnt + pc.g + 1)
    case AwaitReady => WaitGeq(1, p.prevcnt + pc.g + 1)
    case _ => StageOp(p.n, c, call, p.nextcnt + Sum(p, pc.g), p.bcastcnt + Sum(p, pc.g), pc.m, pc.st)
  }

  predicate AckNo(no: nat) {
    BCAST_FLAG_START_NO <= no < BCAST_FLAG_START_NO + ACK_FLAGS
  }

  predicate Enabled(p: Chain, s: State, c: nat)
    requires Valid(p) && At(p, s, c)
  {
    match OpAt(p, s.pc[c], c)
    case WaitGeq(no, v) => (if no == 0 then s.data[c] else s.ready[c]) >= v
    case WaitEq(no, v) => AckNo(no) && s.ack[c][no - BCAST_FLAG_START_NO] == v
    case _ => true
  }

  function Buffer(s: State, c: nat, src: Src): Mem
    requires c < |s.inb| && c < |s.out|
  {
    if src == InBuff then s.inb[c] else s.out[c]
  }

  function SetFlag(flags: seq<nat>, q: nat, v: nat): seq<nat>
    requires q < |flags|
  {
    flags[q := v]
  }

  function Apply(p: Chain, s: State, c: nat): State
    requires Valid(p) && At(p, s, c)
  {
    var pc := s.pc[c];
    var s1 := s.(pc := s.pc[c := Advance(p, pc)]);
    match OpAt(p, pc, c)
    case SendFlag(no, to, v) =>
      if to >= p.n then s1
      else if no == 0 then s1.(data := s.data[to := v])
      else if no == 1 then s1.(ready := s.ready[to := v])
      else if AckNo(no) then s1.(ack := s.ack[to := SetFlag(s.ack[to], no - BCAST_FLAG_START_NO, v)])
      else s1
    case LoadIn(user, at) => s1.(inb := s.inb[c := Put(s.inb[c], at, Leaf(c, pc.g, pc.m))])
    case PushData(src, at, to) =>
      if to < p.n then s1.(out := s.out[to := Put(s.out[to], at, Get(Buffer(s, c, src), at))]) else s1
    case ToUsers(src, at, user) =>
      s1.(user := s.user[c := s.user[c][(pc.g, pc.m) := Get(Buffer(s, c, src), at)]])
    case _ => s1
  }

  ghost predicate Init(p: Chain, s: State) {
    && Shape(p, s)
    && (forall c :: 0 <= c < p.n ==> s.pc[c] == Pc(0, 0, SetReady) && s.data[c] <= p.nextcnt && s.ready[c] <= p.prevcnt)
    && (forall c, q :: 0 <= c < p.n && 0 <= q < ACK_FLAGS ==> s.ack[c][q] <= p.bcastcnt)
  }

  // ---- what a card has done -----------------------------------------------------------

  function Rank(st: Stage): nat {
    match st
    case SetReady => 0 case AwaitReady => 0 case Take => 0
    case AwaitAck => 1 case Push => 2 case Flag => 3 case Copy => 4 case Ack => 5
  }

  /** Steps of call h in which a card at `pc` has executed stage `st`. */
  function Past(p: Chain, pc: Pc, h: nat, st: Stage): nat
    requires Valid(p) && h < |p.calls|
  {
    if h < pc.g then StepsOf(p, h)
    else if h > pc.g || Opening(pc.st) then 0
    else pc.m + if Rank(pc.st) > Rank(st) then 1 else 0
  }

  /** Handshakes sent, and handshakes awaited. */
  function Shook(pc: Pc): nat {
    pc.g + if pc.st.SetReady? then 0 else 1
  }

  function Entered(pc: Pc): nat {
    pc.g + if Opening(pc.st) then 0 else 1
  }

  /** Counter value after the steps in which a card has executed stage `st`. */
  function Counter(p: Chain, pc: Pc, st: Stage): nat
    requires Valid(p) && pc.g <= |p.calls|
  {
    Sum(p, pc.g) + if pc.g < |p.calls| then Past(p, pc, pc.g, st) else 0
  }

  lemma CounterBeyond(p: Chain, pc: Pc, h: nat, st: Stage)
    requires Valid(p) && pc.g <= |p.calls| && PcOk(p, pc) && h < |p.calls| && pc.g < h
    ensures Counter(p, pc, st) <= Sum(p, h)
  {
    SumMono(p, pc.g + 1, h);
  }

  /** A stage moves the counts of its own step only. */
  lemma PastStep(p: Chain, pc: Pc, h: nat, st: Stage)
    requires Valid(p) && pc.g < |p.calls| && PcOk(p, pc) && h < |p.calls| && !Opening(st)
    ensures Past(p, Advance(p, pc), h, st) == Past(p, pc, h, st) + if h == pc.g && st == pc.st then 1 else 0
    ensures pc.st != Ack ==> Counter(p, Advance(p, pc), st) == Counter(p, pc, st) + if st == pc.st then 1 else 0
  {
  }

  lemma CounterStep(p: Chain, pc: Pc, st: Stage)
    requires Valid(p) && pc.g < |p.calls| && PcOk(p, pc) && !Opening(st)
    ensures Counter(p, Advance(p, pc), st) == Counter(p, pc, st) + if st == pc.st then 1 else 0
  {
  }

  // ---- control invariant -----------------------------------------------------------------

  /** Card c passes data on in call h. */
  predicate Active(p: Chain, c: nat, h: nat)
    requires c < p.n && h < |p.calls|
  {
    Next(p.n, c) != p.calls[h].root
  }

  ghost predicate PcsOk(p: Chain, s: State)
    requires Valid(p)
  {
    Shape(p, s) && forall c :: 0 <= c < p.n ==> s.pc[c].g <= |p.calls| && PcOk(p, s.pc[c])
  }

  /** Between c and its successor d, in call h: d takes only what c has flagged, and c
      pushes only into slots whose last use d has acknowledged. */
  ghost predicate LinkOk(p: Chain, s: State, c: nat, h: nat)
    requires Valid(p) && PcsOk(p, s) && c < p.n
  {
    var d := Next(p.n, c);
    h < |p.calls| && Active(p, c, h) ==>
      && Past(p, s.pc[d], h, Take) <= Past(p, s.pc[c], h, Flag)
      && Past(p, s.pc[c], h, AwaitAck) <= Past(p, s.pc[d], h, Ack) + Slots(p.calls[h])
      && (Past(p, s.pc[c], h, Flag) > 0 ==> s.data[d] >= p.nextcnt + Sum(p, h) + Past(p, s.pc[c], h, Flag))
  }

  /** A flag shows its writer's counter, unless the writer has not written yet. */
  predicate FlagIs(flag: nat, count: nat, start: nat) {
    flag == count || (count == start && flag <= start)
  }

  ghost predicate CardOk(p: Chain, s: State, c: nat)
    requires Valid(p) && PcsOk(p, s) && c < p.n
  {
    var (pc, pd) := (s.pc[c], s.pc[Next(p.n, c)]);
    && Entered(pc) <= Shook(pd)
    && FlagIs(s.ready[c], p.prevcnt + Shook(pd), p.prevcnt)
    && s.data[Next(p.n, c)] <= p.nextcnt + Counter(p, pc, Flag)
  }

  /** No acknowledgement is ahead of the receiver. */
  ghost predicate AckBound(p: Chain, s: State, c: nat, q: nat)
    requires Valid(p) && PcsOk(p, s) && c < p.n
  {
    q < ACK_FLAGS ==> s.ack[c][q] <= p.bcastcnt + Counter(p, s.pc[Next(p.n, c)], Ack)
  }

  /** The acknowledgement of step j stays in its flag for a whole round of slots. */
  ghost predicate AckShown(p: Chain, s: State, c: nat, j: nat)
    requires Valid(p) && PcsOk(p, s) && c < p.n
  {
    var g := s.pc[c].g;
    g < |p.calls| && Active(p, c, g) && p.calls[g].acks ==>
      var (w, acked) := (Slots(p.calls[g]), Past(p, s.pc[Next(p.n, c)], g, Ack));
      j < acked <= j + w ==> AckFlag(p, s, c, j) == p.bcastcnt + Sum(p, g) + j + 1
  }

  ghost function AckFlag(p: Chain, s: State, c: nat, j: nat): nat
    requires Valid(p) && PcsOk(p, s) && c < p.n && s.pc[c].g < |p.calls|
  {
    SlotsPositive(p.n, p.calls[s.pc[c].g]);
    var q := j % Slots(p.calls[s.pc[c].g]);
    if q < ACK_FLAGS then s.ack[c][q] else 0
  }

  ghost predicate Control(p: Chain, s: State)
    requires Valid(p)
  {
    && PcsOk(p, s)
    && (forall c :: 0 <= c < p.n ==> CardOk(p, s, c))
    && (forall c: nat, h: nat :: c < p.n ==> LinkOk(p, s, c, h))
    && (forall c: nat, q: nat :: c < p.n ==> AckBound(p, s, c, q))
    && (forall c: nat, j: nat :: c < p.n ==> AckShown(p, s, c, j))
  }

  lemma InitControl(p: Chain, s: State)
    requires Valid(p) && Init(p, s)
    ensures Control(p, s)
  {
    assert forall c :: 0 <= c < p.n ==> s.pc[c] == Pc(0, 0, SetReady);
    assert PcsOk(p, s);
  }

  // ---- the waits are exact -----------------------------------------------------------------

  /** The data flag says that the previous card has flagged this very step. */
  lemma DataWaitExact(p: Chain, s: State, d: nat)
    requires Valid(p) && Control(p, s) && At(p, s, d) && s.pc[d].st == Take && s.pc[d].g < |p.calls|
    requires d != p.calls[s.pc[d].g].root
    ensures Enabled(p, s, d) <==> Past(p, s.pc[Prev(p.n, d)], s.pc[d].g, Flag) > s.pc[d].m
  {
    var (c, h, m) := (Prev(p.n, d), s.pc[d].g, s.pc[d].m);
    assert CardOk(p, s, c) && LinkOk(p, s, c, h) && Next(p.n, c) == d;
    if s.pc[c].g < h { CounterBeyond(p, s.pc[c], h, Flag); }
  }

  /** The equality on an acknowledgement flag holds exactly when the receiver has
      acknowledged the last use of the slot: never before, and never skipped. */
  lemma AckWaitExact(p: Chain, s: State, c: nat)
    requires Valid(p) && Control(p, s) && At(p, s, c) && OpAt(p, s.pc[c], c).WaitEq?
    ensures
      var Pc(g, m, st) := s.pc[c];
      && st == AwaitAck && Slots(p.calls[g]) <= m
      && (Enabled(p, s, c) <==> Past(p, s.pc[Next(p.n, c)], g, Ack) > m - Slots(p.calls[g]))
  {
    var (Pc(g, m, st), d) := (s.pc[c], Next(p.n, c));
    var w := Slots(p.calls[g]);
    SlotsPositive(p.n, p.calls[g]);
    assert LinkOk(p, s, c, g);
    assert m % w < w;
    SameSlot(w, m);
    assert AckBound(p, s, c, m % w);
    assert AckShown(p, s, c, m - w);
    if s.pc[d].g < g { CounterBeyond(p, s.pc[d], g, Ack); }
  }

  lemma SameSlot(w: nat, m: nat)
    requires 0 < w <= m
    ensures m % w == (m - w) % w
  {
    Arith.ModMinus(w, m);
  }

  // ---- preservation --------------------------------------------------------------------------

  function Slot(p: Chain, pc: Pc): (q: nat)
    requires Valid(p) && pc.g < |p.calls|
    ensures p.calls[pc.g].acks ==> q < ACK_FLAGS
  {
    SlotsPositive(p.n, p.calls[pc.g]);
    pc.m % Slots(p.calls[pc.g])
  }

  /** Which flags a stage writes. */
  lemma FlagEffects(p: Chain, s: State, c: nat)
    requires Valid(p) && At(p, s, c)
    ensures
      var (s', pc) := (Apply(p, s, c), s.pc[c]);
      var call := p.calls[pc.g];
      && s'.pc == s.pc[c := Advance(p, pc)]
      && s'.data == (if pc.st == Flag && Active(p, c, pc.g)
        then s.data[Next(p.n, c) := p.nextcnt + Sum(p, pc.g) + pc.m + 1] else s.data)
      && s'.ready == (if pc.st == SetReady then s.ready[Prev(p.n, c) := p.prevcnt + pc.g + 1] else s.ready)
  {
  }

  lemma AckEffects(p: Chain, s: State, c: nat)
    requires Valid(p) && At(p, s, c)
    ensures
      var (s', pc) := (Apply(p, s, c), s.pc[c]);
      var call := p.calls[pc.g];
      s'.ack == if pc.st == Ack && c != call.root && call.acks then
                  s.ack[Prev(p.n, c) := SetFlag(s.ack[Prev(p.n, c)], Slot(p, pc), p.bcastcnt + Sum(p, pc.g) + pc.m + 1)]
                else s.ack
  {
  }

  lemma ShapeStep(p: Chain, s: State, c: nat)
    requires Valid(p) && PcsOk(p, s) && At(p, s, c)
    ensures PcsOk(p, Apply(p, s, c))
  {
    FlagEffects(p, s, c);
    AckEffects(p, s, c);
  }

  lemma CardStep(p: Chain, s: State, c: nat, d: nat)
    requires Valid(p) && Control(p, s) && At(p, s, c) && Enabled(p, s, c) && d < p.n && PcsOk(p, Apply(p, s, c))
    ensures CardOk(p, Apply(p, s, c), d)
  {
    assert CardOk(p, s, d);
    FlagEffects(p, s, c);
    if d == c || Next(p.n, c) == d || Next(p.n, d) == c { CounterStep(p, s.pc[c], Flag); }
  }

  /** A card that has got past its wait for an acknowledgement has a free slot. */
  lemma RoomToPush(p: Chain, s: State, c: nat)
    requires Valid(p) && Control(p, s) && At(p, s, c) && Enabled(p, s, c)
    requires s.pc[c].st == AwaitAck && Active(p, c, s.pc[c].g)
    ensures
      var g := s.pc[c].g;
      s.pc[c].m < Past(p, s.pc[Next(p.n, c)], g, Ack) + Slots(p.calls[g])
  {
    var op := OpAt(p, s.pc[c], c);
    if op.WaitEq? {
      AckWaitExact(p, s, c);
    } else {
      assert op == Skip;
    }
  }

  lemma LinkCounts(p: Chain, s: State, c: nat, b: nat, h: nat)
    requires Valid(p) && Control(p, s) && At(p, s, c) && Enabled(p, s, c) && b < p.n && PcsOk(p, Apply(p, s, c))
    requires h < |p.calls| && Active(p, b, h)
    ensures
      var (s', d) := (Apply(p, s, c), Next(p.n, b));
      && Past(p, s'.pc[d], h, Take) <= Past(p, s'.pc[b], h, Flag)
      && Past(p, s'.pc[b], h, AwaitAck) <= Past(p, s'.pc[d], h, Ack) + Slots(p.calls[h])
  {
    var d := Next(p.n, b);
    assert LinkOk(p, s, b, h);
    FlagEffects(p, s, c);
    PastStep(p, s.pc[c], h, Take);
    PastStep(p, s.pc[c], h, AwaitAck);
    PastStep(p, s.pc[c], h, Flag);
    PastStep(p, s.pc[c], h, Ack);
    if c == d && s.pc[c].g == h && s.pc[c].st == Take { DataWaitExact(p, s, c); }
    if c == b && s.pc[c].g == h && s.pc[c].st == AwaitAck { RoomToPush(p, s, c); }
  }

  lemma LinkStep(p: Chain, s: State, c: nat, b: nat, h: nat)
    requires Valid(p) && Control(p, s) && At(p, s, c) && Enabled(p, s, c) && b < p.n && PcsOk(p, Apply(p, s, c))
    ensures LinkOk(p, Apply(p, s, c), b, h)
  {
    if h < |p.calls| && Active(p, b, h) {
      assert LinkOk(p, s, b, h) && CardOk(p, s, b);
      LinkCounts(p, s, c, b, h);
      FlagEffects(p, s, c);
      PastStep(p, s.pc[c], h, Flag);
      if c == b && s.pc[c].st == Flag && h < s.pc[c].g { SumMono(p, h + 1, s.pc[c].g); }
    }
  }

  lemma AckBoundStep(p: Chain, s: State, c: nat, b: nat, q: nat)
    requires Valid(p) && Control(p, s) && At(p, s, c) && Enabled(p, s, c) && b < p.n && PcsOk(p, Apply(p, s, c))
    ensures AckBound(p, Apply(p, s, c), b, q)
  {
    assert AckBound(p, s, b, q);
    AckEffects(p, s, c);
    FlagEffects(p, s, c);
    CounterStep(p, s.pc[c], Ack);
  }

  /** A receiver never works on a call that its predecessor has not begun. */
  lemma NotAhead(p: Chain, s: State, b: nat, h: nat)
    requires Valid(p) && Control(p, s) && b < p.n && h < |p.calls| && Active(p, b, h) && s.pc[b].g <= h
    requires s.pc[b].g < h || s.pc[b] == StepFrom(p, h, 0) || Opening(s.pc[b].st)
    ensures Past(p, s.pc[Next(p.n, b)], h, Ack) == 0
  {
    assert LinkOk(p, s, b, h);
    var pd := s.pc[Next(p.n, b)];
    assert PcOk(p, pd);
    assert Past(p, pd, h, Ack) <= Past(p, pd, h, Take);
  }

  lemma AckShownStep(p: Chain, s: State, c: nat, b: nat, j: nat)
    requires Valid(p) && Control(p, s) && At(p, s, c) && Enabled(p, s, c) && b < p.n && PcsOk(p, Apply(p, s, c))
    requires forall h: nat :: LinkOk(p, Apply(p, s, c), b, h)
    ensures AckShown(p, Apply(p, s, c), b, j)
  {
    var (s', d) := (Apply(p, s, c), Next(p.n, b));
    var g := s'.pc[b].g;
    FlagEffects(p, s, c);
    AckEffects(p, s, c);
    if g < |p.calls| && Active(p, b, g) && p.calls[g].acks {
      assert AckShown(p, s, b, j);
      PastStep(p, s.pc[c], g, Ack);
      if c == b {
        if s.pc[b].g != g { NotAhead(p, s, b, g); }
      } else if c == d && s.pc[d].st == Ack {
        AckShownNew(p, s, b, j);
      }
    }
  }

  /** An acknowledgement leaves those of the last round in place. */
  lemma AckShownNew(p: Chain, s: State, b: nat, j: nat)
    requires Valid(p) && Control(p, s) && b < p.n && At(p, s, Next(p.n, b)) && Enabled(p, s, Next(p.n, b))
    requires s.pc[Next(p.n, b)].st == Ack && PcsOk(p, Apply(p, s, Next(p.n, b)))
    requires s.pc[b].g < |p.calls| && Active(p, b, s.pc[b].g) && p.calls[s.pc[b].g].acks
    ensures AckShown(p, Apply(p, s, Next(p.n, b)), b, j)
  {
    var (d, g) := (Next(p.n, b), s.pc[b].g);
    var Pc(h, m, _) := s.pc[d];
    FlagEffects(p, s, d);
    AckEffects(p, s, d);
    PastStep(p, s.pc[d], g, Ack);
    assert AckShown(p, s, b, j);
    assert LinkOk(p, s, b, h);
    if h == g {
      AckShownSame(p, s, b, j);
    } else if h < g {
      NotYet(p, s.pc[d], g);
    }
  }

  lemma AckShownSame(p: Chain, s: State, b: nat, j: nat)
    requires Valid(p) && Control(p, s) && b < p.n && At(p, s, Next(p.n, b)) && Enabled(p, s, Next(p.n, b))
    requires s.pc[Next(p.n, b)].st == Ack && PcsOk(p, Apply(p, s, Next(p.n, b)))
    requires s.pc[b].g < |p.calls| && Active(p, b, s.pc[b].g) && p.calls[s.pc[b].g].acks
      && s.pc[Next(p.n, b)].g == s.pc[b].g
    ensures AckShown(p, Apply(p, s, Next(p.n, b)), b, j)
  {
    var (d, g) := (Next(p.n, b), s.pc[b].g);
    var m := s.pc[d].m;
    FlagEffects(p, s, d);
    AckEffects(p, s, d);
    PastStep(p, s.pc[d], g, Ack);
    assert AckShown(p, s, b, j);
    assert LinkOk(p, s, b, g);
    if j < m < j + Slots(p.calls[g]) { SlotsDiffer(Slots(p.calls[g]), j, m); }
  }

  lemma NotYet(p: Chain, pc: Pc, h: nat)
    requires Valid(p) && h < |p.calls| && pc.g < h
    ensures forall st :: Past(p, pc, h, st) == 0
  {
  }

  lemma ControlStep(p: Chain, s: State, c: nat)
    requires Valid(p) && Control(p, s) && At(p, s, c) && Enabled(p, s, c)
    ensures Control(p, Apply(p, s, c))
  {
    var s' := Apply(p, s, c);
    ShapeStep(p, s, c);
    forall b | 0 <= b < p.n ensures CardOk(p, s', b) { CardStep(p, s, c, b); }
    forall b: nat, h: nat | b < p.n ensures LinkOk(p, s', b, h) { LinkStep(p, s, c, b, h); }
    forall b: nat, q: nat | b < p.n ensures AckBound(p, s', b, q) { AckBoundStep(p, s, c, b, q); }
    forall b: nat, j: nat | b < p.n ensures AckShown(p, s', b, j) { AckShownStep(p, s, c, b, j); }
  }
}
