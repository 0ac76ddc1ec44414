/** All cards of a Reduce chain, over any sequence of calls with any roots, in any
    interleaving.  `data[c]` and `ready[c]` are flags 0 and 1 of card c; the second carries
    both the handshake before a call and the credits within it. */
module ReduceMachine {
  import opened Cycle
  import opened Memory
  import opened Terms
  import opened ReduceChain

  datatype State = State(
    pc: seq<Pc>, data: seq<nat>, ready: seq<nat>, inb: seq<Mem>, out: seq<Mem>, user: seq<map<(nat, nat), Term>>)

  predicate Shape(p: Chain, s: State) {
    |s.pc| == |s.data| == |s.ready| == |s.inb| == |s.out| == |s.user| == p.n
  }

  function StepsOf(p: Chain, g: nat): nat
    requires g < |p.calls|
  {
    Steps(p.calls[g])
  }

  /** Steps of all calls before g. */
  function Sum(p: Chain, g: nat): nat
    requires g <= |p.calls|
  {
    if g == 0 then 0 else Sum(p, g - 1) + StepsOf(p, g - 1)
  }

  lemma {:induction false} SumMono(p: Chain, g: nat, h: nat)
    requires g <= h <= |p.calls|
    ensures Sum(p, g) <= Sum(p, h)
    decreases h
  {
    if g < h { SumMono(p, g, h - 1); }
  }

  /** prevcnt when call g begins: one handshake a call, and one count a step. */
  function Credits(p: Chain, g: nat): nat
    requires g <= |p.calls|
  {
    p.prevcnt + Sum(p, g) + g
  }

  predicate Opening(st: Stage) {
    st.SetReady? || st.AwaitReady?
  }

  predicate PcOk(p: Chain, pc: Pc) {
    if pc.g < |p.calls| then (if Opening(pc.st) then pc.m == 0 else pc.m < StepsOf(p, pc.g))
    else pc == Pc(|p.calls|, 0, SetReady)
  }

  function StepFrom(p: Chain, g: nat, m: nat): (pc: Pc)
    requires g < |p.calls| && m <= StepsOf(p, g)
    ensures PcOk(p, pc)
  {
    if m < StepsOf(p, g) then Pc(g, m, Local) else Pc(g + 1, 0, SetReady)
  }

  function Advance(p: Chain, pc: Pc): (pc': Pc)
    requires pc.g < |p.calls| && PcOk(p, pc)
    ensures PcOk(p, pc')
  {
    match pc.st
    case SetReady => Pc(pc.g, 0, AwaitReady)
    case AwaitReady => StepFrom(p, pc.g, 0)
    case Local => Pc(pc.g, pc.m, Credit)
    case Credit => Pc(pc.g, pc.m, Await)
    case Await => Pc(pc.g, pc.m, Fold)
    case Fold => Pc(pc.g, pc.m, AwaitCredit)
    case AwaitCredit => Pc(pc.g, pc.m, Push)
    case Push => Pc(pc.g, pc.m, Flag)
    case Flag => StepFrom(p, pc.g, pc.m + 1)
  }

  ghost predicate At(p: Chain, s: State, c: nat) {
    Shape(p, s) && c < p.n && s.pc[c].g < |p.calls| && PcOk(p, s.pc[c])
  }

  /** The operation a card is about to execute. */
  function OpAt(p: Chain, pc: Pc, c: nat): Op
    requires pc.g < |p.calls| && c < p.n
  {
    match pc.st
    case SetReady => SendFlag(1, Prev(p.n, c), Credits(p, pc.g) + 1)
    case AwaitReady => WaitGeq(1, Credits(p, pc.g) + 1)
    case _ => StageOp(p.n, c, p.calls[pc.g], p.nextcnt + Sum(p, pc.g), Credits(p, pc.g) + 1, pc.m, pc.st)
  }

  predicate Enabled(p: Chain, s: State, c: nat)
    requires At(p, s, c)
  {
    match OpAt(p, s.pc[c], c)
    case WaitGeq(no, v) => (if no == 0 then s.data[c] else s.ready[c]) >= v
    case _ => true
  }

  function Apply(p: Chain, s: State, c: nat): State
    requires At(p, s, c)
  {
    var pc := s.pc[c];
    var s1 := s.(pc := s.pc[c := Advance(p, pc)]);
    match OpAt(p, pc, c)
    case SendFlag(no, to, v) =>
      if to >= p.n then s1
      else if no == 0 then s1.(data := s.data[to := v])
      else s1.(ready := s.ready[to := v])
    case ReduceLocal(user, at) => s1.(inb := s.inb[c := Put(s.inb[c], at, Leaf(c, pc.g, pc.m))])
    case Combine(at) => s1.(out := s.out[c := Put(s.out[c], at, Node(Get(s.inb[c], at), Get(s.out[c], at)))])
    case CombineToUser(at, user) =>
      s1.(user := s.user[c := s.user[c][(pc.g, pc.m) := Node(Get(s.inb[c], at), Get(s.out[c], at))]])
    case PushData(src, at, to) =>
      if to >= p.n then s1
      else s1.(out := s.out[to := Put(s.out[to], at, Get(if src == InBuff then s.inb[c] else s.out[c], at))])
    case _ => s1
  }

  ghost predicate Init(p: Chain, s: State) {
    && Shape(p, s)
    && (forall c :: 0 <= c < p.n ==> s.pc[c] == Pc(0, 0, SetReady) && s.data[c] <= p.nextcnt && s.ready[c] <= p.prevcnt)
  }

  // ---- what a card has done -----------------------------------------------------------

  function Rank(st: Stage): nat {
    match st
    case SetReady => 0 case AwaitReady => 0 case Local => 0 case Credit => 1
    case Await => 2 case Fold => 3 case AwaitCredit => 4 case Push => 5 case Flag => 6
  }

  /** Steps of call h in which a card at `pc` has executed stage `st`. */
  function Past(p: Chain, pc: Pc, h: nat, st: Stage): nat
    requires h < |p.calls|
  {
    if h < pc.g then StepsOf(p, h)
    else if h > pc.g || Opening(pc.st) then 0
    else pc.m + if Rank(pc.st) > Rank(st) then 1 else 0
  }

  function Shook(pc: Pc): nat {
    pc.g + if pc.st.SetReady? then 0 else 1
  }

  function Entered(pc: Pc): nat {
    pc.g + if Opening(pc.st) then 0 else 1
  }

  /** Counter values after the steps in which a card has flagged, and given credit. */
  function Flagged(p: Chain, pc: Pc): nat
    requires pc.g <= |p.calls|
  {
    p.nextcnt + Sum(p, pc.g) + if pc.g < |p.calls| then Past(p, pc, pc.g, Flag) else 0
  }

  function Credited(p: Chain, pc: Pc): nat
    requires pc.g <= |p.calls|
  {
    Credits(p, pc.g) + if pc.g == |p.calls| || pc.st == SetReady then 0 else 1 + Past(p, pc, pc.g, Credit)
  }

  lemma CountersBeyond(p: Chain, pc: Pc, h: nat)
    requires PcOk(p, pc) && h < |p.calls| && pc.g < h
    ensures Flagged(p, pc) <= p.nextcnt + Sum(p, h) && Credited(p, pc) <= Credits(p, h)
  {
    SumMono(p, pc.g + 1, h);
  }

  /** A stage moves the counts of its own step only. */
  lemma PastStep(p: Chain, pc: Pc, h: nat, st: Stage)
    requires pc.g < |p.calls| && PcOk(p, pc) && h < |p.calls| && !Opening(st)
    ensures Past(p, Advance(p, pc), h, st) == Past(p, pc, h, st) + if h == pc.g && st == pc.st then 1 else 0
  {
  }

  lemma CountersStep(p: Chain, pc: Pc)
    requires pc.g < |p.calls| && PcOk(p, pc)
    ensures Flagged(p, Advance(p, pc)) == Flagged(p, pc) + if pc.st == Flag then 1 else 0
    ensures Credited(p, Advance(p, pc)) == Credited(p, pc) + if pc.st == Credit || pc.st == SetReady then 1 else 0
  {
  }

  // ---- control invariant -----------------------------------------------------------------

  ghost predicate PcsOk(p: Chain, s: State) {
    Shape(p, s) && forall c :: 0 <= c < p.n ==> s.pc[c].g <= |p.calls| && PcOk(p, s.pc[c])
  }

  predicate Active(p: Chain, c: nat, h: nat)
    requires c < p.n && h < |p.calls|
  {
    c != p.calls[h].root
  }

  /** Who has got past the wait for credit in `pushed` steps may do so only if the receiver
      has begun the round of steps to which the last of them belongs. */
  predicate HasCredit(pushed: nat, begun: nat) {
    pushed > 0 && Round(pushed - 1) > 0 ==> begun > Round(pushed - 1)
  }

  /** The credit a receiver has given, as far as the sender's flag has to show it. */
  predicate CreditShown(flag: nat, base: nat, begun: nat) {
    begun > 0 && Round(begun - 1) > 0 ==> flag >= base + 1 + Round(begun - 1) + 1
  }

  ghost predicate LinkOk(p: Chain, s: State, c: nat, h: nat)
    requires PcsOk(p, s) && c < p.n
  {
    var d := Next(p.n, c);
    h < |p.calls| && Active(p, c, h) ==>
      && Past(p, s.pc[d], h, Await) <= Past(p, s.pc[c], h, Flag)
      && HasCredit(Past(p, s.pc[c], h, AwaitCredit), Past(p, s.pc[d], h, Credit))
      && (Past(p, s.pc[c], h, Flag) > 0 ==> s.data[d] >= p.nextcnt + Sum(p, h) + Past(p, s.pc[c], h, Flag))
      && CreditShown(s.ready[c], Credits(p, h), Past(p, s.pc[d], h, Credit))
  }

  ghost predicate CardOk(p: Chain, s: State, c: nat)
    requires PcsOk(p, s) && c < p.n
  {
    var (pc, pd) := (s.pc[c], s.pc[Next(p.n, c)]);
    && Entered(pc) <= Shook(pd)
    && s.data[Next(p.n, c)] <= Flagged(p, pc)
    && s.ready[c] <= Credited(p, pd)
  }

  /** The handshake of call h is visible. */
  ghost predicate ReadyShown(p: Chain, s: State, c: nat, h: nat)
    requires PcsOk(p, s) && c < p.n
  {
    h < |p.calls| && Shook(s.pc[Next(p.n, c)]) > h ==> s.ready[c] >= Credits(p, h) + 1
  }

  ghost predicate Control(p: Chain, s: State) {
    && PcsOk(p, s)
    && (forall c :: 0 <= c < p.n ==> CardOk(p, s, c))
    && (forall c: nat, h: nat :: c < p.n ==> LinkOk(p, s, c, h))
    && (forall c: nat, h: nat :: c < p.n ==> ReadyShown(p, s, c, h))
  }

  lemma InitControl(p: Chain, s: State)
    requires Valid(p) && Init(p, s)
    ensures Control(p, s)
  {
    assert forall c :: 0 <= c < p.n ==> s.pc[c] == Pc(0, 0, SetReady);
    assert PcsOk(p, s);
  }

  // ---- the waits are exact -----------------------------------------------------------------

  lemma DataWaitExact(p: Chain, s: State, d: nat)
    requires Valid(p) && Control(p, s) && At(p, s, d) && s.pc[d].st == Await
    requires Prev(p.n, d) != p.calls[s.pc[d].g].root
    ensures Enabled(p, s, d) <==> Past(p, s.pc[Prev(p.n, d)], s.pc[d].g, Flag) > s.pc[d].m
  {
    var (c, h, m) := (Prev(p.n, d), s.pc[d].g, s.pc[d].m);
    assert CardOk(p, s, c) && LinkOk(p, s, c, h) && Next(p.n, c) == d;
    if s.pc[c].g < h { CountersBeyond(p, s.pc[c], h); }
  }

  lemma RoundsCover(k: nat, begun: nat)
    requires NeedsCredit(k)
    ensures Round(k) == k > 0
    ensures begun > k ==> Round(begun - 1) >= k
  {
    if begun > k { RoundMono(k, begun - 1); }
  }

  lemma RoundMono(i: nat, j: nat)
    requires i <= j
    ensures Round(i) <= Round(j)
  {
    var (a, b) := (i / BUFFERS, j / BUFFERS);
    assert i == BUFFERS * a + i % BUFFERS && j == BUFFERS * b + j % BUFFERS;
  }

  /** A sender gets its credit exactly when the receiver has begun the same step. */
  lemma CreditWaitExact(p: Chain, s: State, c: nat)
    requires Valid(p) && Control(p, s) && At(p, s, c) && s.pc[c].st == AwaitCredit
    requires Active(p, c, s.pc[c].g) && NeedsCredit(s.pc[c].m)
    ensures Enabled(p, s, c) <==> Past(p, s.pc[Next(p.n, c)], s.pc[c].g, Credit) > s.pc[c].m
  {
    var (Pc(g, m, _), d) := (s.pc[c], Next(p.n, c));
    assert CardOk(p, s, c) && LinkOk(p, s, c, g);
    RoundsCover(m, Past(p, s.pc[d], g, Credit));
  }

  // ---- preservation --------------------------------------------------------------------------

  lemma FlagEffects(p: Chain, s: State, c: nat)
    requires Valid(p) && At(p, s, c)
    ensures
      var (s', Pc(g, m, st)) := (Apply(p, s, c), s.pc[c]);
      && s'.pc == s.pc[c := Advance(p, s.pc[c])]
      && s'.data == (if st == Flag && Active(p, c, g) then s.data[Next(p.n, c) := p.nextcnt + Sum(p, g) + m + 1]
        else s.data)
      && s'.ready == (if st == SetReady then s.ready[Prev(p.n, c) := Credits(p, g) + 1]
                      else if st == Credit && Active(p, Prev(p.n, c), g) && NeedsCredit(m) then
                        s.ready[Prev(p.n, c) := Credits(p, g) + 1 + m + 1]
                      else s.ready)
  {
  }

  lemma ShapeStep(p: Chain, s: State, c: nat)
    requires Valid(p) && PcsOk(p, s) && At(p, s, c)
    ensures PcsOk(p, Apply(p, s, c))
  {
    FlagEffects(p, s, c);
  }

  lemma CardStep(p: Chain, s: State, c: nat, d: nat)
    requires Valid(p) && Control(p, s) && At(p, s, c) && Enabled(p, s, c) && d < p.n && PcsOk(p, Apply(p, s, c))
    ensures CardOk(p, Apply(p, s, c), d)
  {
    if d == c {
      OwnCardStep(p, s, c);
    } else {
      assert CardOk(p, s, d);
      FlagEffects(p, s, c);
      if Next(p.n, c) == d || Next(p.n, d) == c { CountersStep(p, s.pc[c]); }
    }
  }

  lemma OwnCardStep(p: Chain, s: State, c: nat)
    requires Valid(p) && Control(p, s) && At(p, s, c) && Enabled(p, s, c) && PcsOk(p, Apply(p, s, c))
    ensures CardOk(p, Apply(p, s, c), c)
  {
    assert CardOk(p, s, c);
    FlagEffects(p, s, c);
    CountersStep(p, s.pc[c]);
    if s.pc[c].st == AwaitReady { EntersBehind(p, s, c); }
  }

  /** A card goes into a call only after its receiver has shaken hands for it. */
  lemma EntersBehind(p: Chain, s: State, c: nat)
    requires Valid(p) && Control(p, s) && At(p, s, c) && Enabled(p, s, c) && s.pc[c].st == AwaitReady
    ensures Shook(s.pc[Next(p.n, c)]) > s.pc[c].g
  {
    assert CardOk(p, s, c);
    if s.pc[Next(p.n, c)].g < s.pc[c].g { CountersBeyond(p, s.pc[Next(p.n, c)], s.pc[c].g); }
  }

  lemma ReadyStep(p: Chain, s: State, c: nat, b: nat, h: nat)
    requires Valid(p) && Control(p, s) && At(p, s, c) && Enabled(p, s, c) && b < p.n && PcsOk(p, Apply(p, s, c))
    ensures ReadyShown(p, Apply(p, s, c), b, h)
  {
    assert ReadyShown(p, s, b, h);
    FlagEffects(p, s, c);
    if h < |p.calls| && h < s.pc[c].g { SumMono(p, h, s.pc[c].g); }
  }

  /** Steps within a round need no new credit. */
  lemma SameRound(k: nat)
    requires k > 0 && !NeedsCredit(k)
    ensures Round(k) == Round(k - 1)
  {
  }

  lemma LinkStep(p: Chain, s: State, c: nat, b: nat, h: nat)
    requires Valid(p) && Control(p, s) && At(p, s, c) && Enabled(p, s, c) && b < p.n && PcsOk(p, Apply(p, s, c))
    ensures LinkOk(p, Apply(p, s, c), b, h)
  {
    if h < |p.calls| && Active(p, b, h) {
      LinkCounts(p, s, c, b, h);
      LinkFlags(p, s, c, b, h);
    }
  }

  lemma LinkCounts(p: Chain, s: State, c: nat, b: nat, h: nat)
    requires Valid(p) && Control(p, s) && At(p, s, c) && Enabled(p, s, c) && b < p.n && PcsOk(p, Apply(p, s, c))
    requires h < |p.calls| && Active(p, b, h)
    ensures
      var (s', d) := (Apply(p, s, c), Next(p.n, b));
      && Past(p, s'.pc[d], h, Await) <= Past(p, s'.pc[b], h, Flag)
      && HasCredit(Past(p, s'.pc[b], h, AwaitCredit), Past(p, s'.pc[d], h, Credit))
  {
    var d := Next(p.n, b);
    assert LinkOk(p, s, b, h);
    FlagEffects(p, s, c);
    PastStep(p, s.pc[c], h, Await);
    PastStep(p, s.pc[c], h, Flag);
    PastStep(p, s.pc[c], h, AwaitCredit);
    PastStep(p, s.pc[c], h, Credit);
    if c == d && s.pc[c].g == h && s.pc[c].st == Await { DataWaitExact(p, s, c); }
    if c == b && s.pc[c].g == h && s.pc[c].st == AwaitCredit {
      if NeedsCredit(s.pc[c].m) { CreditWaitExact(p, s, c); } else if s.pc[c].m > 0 { SameRound(s.pc[c].m); }
    }
  }

  lemma LinkFlags(p: Chain, s: State, c: nat, b: nat, h: nat)
    requires Valid(p) && Control(p, s) && At(p, s, c) && Enabled(p, s, c) && b < p.n && PcsOk(p, Apply(p, s, c))
    requires h < |p.calls| && Active(p, b, h)
    ensures
      var (s', d) := (Apply(p, s, c), Next(p.n, b));
      && (Past(p, s'.pc[b], h, Flag) > 0 ==> s'.data[d] >= p.nextcnt + Sum(p, h) + Past(p, s'.pc[b], h, Flag))
      && CreditShown(s'.ready[b], Credits(p, h), Past(p, s'.pc[d], h, Credit))
  {
    var d := Next(p.n, b);
    assert LinkOk(p, s, b, h) && CardOk(p, s, b);
    FlagEffects(p, s, c);
    PastStep(p, s.pc[c], h, Flag);
    PastStep(p, s.pc[c], h, Credit);
    if c == b && s.pc[c].st == Flag && h < s.pc[c].g { SumMono(p, h + 1, s.pc[c].g); }
    if c == d { CreditShownStep(p, s, b, h); }
  }

  /** Flag 1 never goes back. */
  lemma ReadyGrows(p: Chain, s: State, b: nat)
    requires Valid(p) && Control(p, s) && b < p.n && At(p, s, Next(p.n, b)) && Enabled(p, s, Next(p.n, b))
    ensures
      var (d, s') := (Next(p.n, b), Apply(p, s, Next(p.n, b)));
      var Pc(g, m, st) := s.pc[d];
      && b < |s'.ready| && s'.ready[b] >= s.ready[b]
      && (st == Credit && Active(p, b, g) && NeedsCredit(m) ==> s'.ready[b] == Credits(p, g) + 1 + m + 1)
  {
    assert CardOk(p, s, b);
    FlagEffects(p, s, Next(p.n, b));
  }

  /** Beginning one more step. */
  lemma BeginStep(flag: nat, flag': nat, base: nat, m: nat)
    requires CreditShown(flag, base, m) && flag' >= flag && (NeedsCredit(m) ==> flag' == base + 1 + m + 1)
    ensures CreditShown(flag', base, m + 1)
  {
    if NeedsCredit(m) { RoundsCover(m, m); } else if m > 0 { SameRound(m); }
  }

  lemma CreditShownStep(p: Chain, s: State, b: nat, h: nat)
    requires Valid(p) && Control(p, s) && b < p.n && At(p, s, Next(p.n, b)) && Enabled(p, s, Next(p.n, b))
    requires h < |p.calls| && Active(p, b, h)
    ensures
      var (d, s') := (Next(p.n, b), Apply(p, s, Next(p.n, b)));
      b < |s'.ready| && d < |s'.pc| &&
      CreditShown(s'.ready[b], Credits(p, h), Past(p, s'.pc[d], h, Credit))
  {
    var d := Next(p.n, b);
    var s' := Apply(p, s, d);
    var Pc(g, m, st) := s.pc[d];
    assert LinkOk(p, s, b, h);
    ReadyGrows(p, s, b);
    PastStep(p, s.pc[d], h, Credit);
    assert s'.pc == s.pc[d := Advance(p, s.pc[d])];
    if h == g && st == Credit { BeginStep(s.ready[b], s'.ready[b], Credits(p, h), m); }
  }

  lemma ControlStep(p: Chain, s: State, c: nat)
    requires Valid(p) && Control(p, s) && At(p, s, c) && Enabled(p, s, c)
    ensures Control(p, Apply(p, s, c))
  {
    var s' := Apply(p, s, c);
    ShapeStep(p, s, c);
    forall b | 0 <= b < p.n ensures CardOk(p, s', b) { CardStep(p, s, c, b); }
    forall b: nat, h: nat | b < p.n ensures LinkOk(p, s', b, h) { LinkStep(p, s, c, b, h); }
    forall b: nat, h: nat | b < p.n ensures ReadyShown(p, s', b, h) { ReadyStep(p, s, c, b, h); }
  }
}
