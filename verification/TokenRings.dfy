/** Ring collectives on cards with several ranks: the ranks with one number form a ring over
    the cards, and the ranks of a card share its device by the token.  Rank r of card c waits
    for its turn, reduces, passes the token on and sends its chunk around ring r before it
    waits for its next turn (src/proc.cc, the chunk loop of tcclNicPublicWork).

    A state is a state of the token on every card and of the ring of every rank number; a step
    is a step of one of them or, when a rank reduces, of both. */
module TokenRings {
  import opened Arith
  import opened Cycle
  import opened RingSchedule
  import opened RingMachine
  import R = RingProgress
  import Data = RingTheorems
  import Tok = SplitToken

  /** What the ranks of every card do, and the ring of every rank number. */
  datatype Net = Net(card: Tok.Card, rings: seq<Ring>)

  datatype World = World(tok: seq<Tok.State>, ring: seq<RingMachine.State>)

  function Cards(p: Net): nat
    requires p.rings != []
  {
    p.rings[0].n
  }

  /** Chunks of rank r in calls before g. */
  function Begins(p: Net, r: nat, g: nat): nat
    requires Tok.Valid(p.card) && g <= |p.card.calls|
  {
    if g == 0 then 0 else Begins(p, r, g - 1) + Tok.Passes(p.card, g - 1, r)
  }

  lemma {:induction false} BeginsMono(p: Net, r: nat, g: nat, h: nat)
    requires Tok.Valid(p.card) && g <= h <= |p.card.calls|
    ensures Begins(p, r, g) <= Begins(p, r, h)
    decreases h
  {
    if g < h { BeginsMono(p, r, g, h - 1); }
  }

  /** Only the first chunk of a call may open with the handshake. */
  ghost predicate OpensFirst(p: Net, r: nat, g: nat, i: nat)
    requires Tok.Valid(p.card) && r < |p.rings| && g < |p.card.calls|
  {
    0 < i < Tok.Passes(p.card, g, r) && Begins(p, r, g) + i < |p.rings[r].chunks| ==>
      !p.rings[r].chunks[Begins(p, r, g) + i].opens
  }

  ghost predicate RingOk(p: Net, r: nat)
    requires Tok.Valid(p.card) && r < |p.rings|
  {
    && RingSchedule.Valid(p.rings[r]) && p.rings[r].n == p.rings[0].n
    && |p.rings[r].chunks| == Begins(p, r, |p.card.calls|)
    && forall g: nat, i: nat :: g < |p.card.calls| ==> OpensFirst(p, r, g, i)
  }

  ghost predicate Valid(p: Net) {
    Tok.Valid(p.card) && |p.rings| == p.card.ranks && forall r :: 0 <= r < |p.rings| ==> RingOk(p, r)
  }

  // ---- one rank of one card ------------------------------------------------------------------

  /** The next operation on the rank's stream belongs to its ring. */
  predicate RingNext(p: Net, r: nat, tp: Tok.Pc, rp: Pc)
    requires Tok.Valid(p.card) && tp.g < |p.card.calls|
  {
    match tp.st
    case Reset => Tok.Passes(p.card, tp.g, r) > 0 && (rp.st.SetReady? || rp.st.AwaitReady?)
    case Wait(_) => LoadedIn(rp.st)
    case Meet => LoadedIn(rp.st)
    case _ => false
  }

  /** Where a rank is in its ring, given where it is in its turns. */
  ghost predicate LaneOk(p: Net, r: nat, tp: Tok.Pc, rp: Pc)
    requires Valid(p) && r < |p.rings|
  {
    var ring := p.rings[r];
    && RingOk(p, r) && tp.g <= |p.card.calls| && Tok.PcOk(p.card, r, tp) && rp.g <= |ring.chunks| && PcOk(ring, rp)
    && if tp.g == |p.card.calls| then rp == First(ring, |ring.chunks|)
       else
         var (b, passes) := (Begins(p, r, tp.g), Tok.Passes(p.card, tp.g, r));
         match tp.st
         case Reset => if passes == 0 then rp == First(ring, b) else rp.g == b && !LoadedIn(rp.st)
         case Wait(i) => rp == Pc(b + i, Load) || (i > 0 && rp.g == b + i - 1 && LoadedIn(rp.st))
         case Reduce(i) => rp == Pc(b + i, Load)
         case Pass(i) => rp == Pc(b + i, Push(0))
         case Meet => rp == First(ring, b + passes) || (passes > 0 && rp.g == b + passes - 1 && LoadedIn(rp.st))
         case Clear => rp == First(ring, b + passes)
  }

  /** Chunks of a call lie inside the ring's program. */
  lemma ChunkInside(p: Net, r: nat, g: nat, i: nat)
    requires Valid(p) && r < |p.rings| && g < |p.card.calls|
    ensures Begins(p, r, g + 1) == Begins(p, r, g) + Tok.Passes(p.card, g, r) <= |p.rings[r].chunks|
    ensures 0 < i < Tok.Passes(p.card, g, r) ==> !p.rings[r].chunks[Begins(p, r, g) + i].opens
  {
    assert RingOk(p, r) && OpensFirst(p, r, g, i);
    BeginsMono(p, r, g + 1, |p.card.calls|);
  }

  // ---- all ranks ---------------------------------------------------------------------------------

  predicate Shape(p: Net, s: World)
    requires p.rings != []
  {
    && |s.tok| == Cards(p) && |s.ring| == |p.rings|
    && (forall c :: 0 <= c < Cards(p) ==> Tok.Shape(p.card, s.tok[c]))
    && (forall r :: 0 <= r < |p.rings| ==> p.rings[r].n == Cards(p) && RingMachine.Shape(p.rings[r], s.ring[r]))
  }

  ghost predicate At(p: Net, s: World, c: nat, r: nat) {
    && Valid(p) && Shape(p, s) && c < Cards(p) && r < |p.rings|
    && Tok.At(p.card, s.tok[c], r)
    && if RingNext(p, r, s.tok[c].pc[r], s.ring[r].pc[c]) || s.tok[c].pc[r].st.Reduce? then
         RingOk(p, r) && RingMachine.At(p.rings[r], s.ring[r], c)
       else true
  }

  /** The ring moves, or the token, or both. */
  predicate RingMoves(p: Net, s: World, c: nat, r: nat)
    requires At(p, s, c, r)
  {
    RingNext(p, r, s.tok[c].pc[r], s.ring[r].pc[c]) || s.tok[c].pc[r].st.Reduce?
  }

  predicate TokenMoves(p: Net, s: World, c: nat, r: nat)
    requires At(p, s, c, r)
  {
    !RingNext(p, r, s.tok[c].pc[r], s.ring[r].pc[c])
  }

  ghost predicate Enabled(p: Net, s: World, c: nat, r: nat)
    requires At(p, s, c, r)
  {
    && (RingMoves(p, s, c, r) ==> RingMachine.Enabled(p.rings[r], s.ring[r], c))
    && (TokenMoves(p, s, c, r) ==> Tok.Enabled(p.card, s.tok[c], r))
    && (TokenMoves(p, s, c, r) && s.tok[c].pc[r].st == Tok.Meet ==> AllThere(p, s, c, s.tok[c].pc[r].g))
  }

  /** Nobody who has come to the end of his turns of call g is still sending. */
  predicate AllThere(p: Net, s: World, c: nat, g: nat)
    requires Tok.Valid(p.card) && |p.rings| == p.card.ranks && p.rings != [] && Shape(p, s) && c < Cards(p)
    requires g < |p.card.calls|
  {
    forall t: nat :: t < p.card.ranks && s.tok[c].pc[t].g == g ==> !RingNext(p, t, s.tok[c].pc[t], s.ring[t].pc[c])
  }

  function Apply(p: Net, s: World, c: nat, r: nat): World
    requires At(p, s, c, r) && Enabled(p, s, c, r)
  {
    World(if TokenMoves(p, s, c, r) then s.tok[c := Tok.Apply(p.card, s.tok[c], r)] else s.tok,
          if RingMoves(p, s, c, r) then s.ring[r := RingMachine.Apply(p.rings[r], s.ring[r], c)] else s.ring)
  }

  ghost predicate Init(p: Net, s: World)
    requires p.rings != []
  {
    && Shape(p, s)
    && (forall c :: 0 <= c < Cards(p) ==> Tok.Init(p.card, s.tok[c]))
    && (forall r :: 0 <= r < |p.rings| ==> RingMachine.Init(p.rings[r], s.ring[r]))
  }

  ghost predicate Step(p: Net, s: World, s': World) {
    exists c: nat, r: nat :: At(p, s, c, r) && Enabled(p, s, c, r) && s' == Apply(p, s, c, r)
  }

  ghost predicate Run(p: Net, tr: seq<World>)
    requires p.rings != []
  {
    && tr != [] && Init(p, tr[0])
    && (forall i :: 0 <= i < |tr| ==> Shape(p, tr[i]))
    && forall i :: 0 < i < |tr| ==> Step(p, tr[i - 1], tr[i])
  }

  // ---- invariant -------------------------------------------------------------------------------------

  ghost predicate Lanes(p: Net, s: World)
    requires Valid(p) && Shape(p, s)
  {
    forall c: nat, r: nat :: c < Cards(p) && r < |p.rings| ==> LaneOk(p, r, s.tok[c].pc[r], s.ring[r].pc[c])
  }

  ghost predicate Inv(p: Net, s: World) {
    && Valid(p) && Shape(p, s)
    && (forall c :: 0 <= c < Cards(p) ==> Tok.Inv(p.card, s.tok[c]))
    && (forall r :: 0 <= r < |p.rings| ==> RingOk(p, r) && Data.Inv(p.rings[r], s.ring[r]))
    && Lanes(p, s)
  }

  lemma InitInv(p: Net, s: World)
    requires Valid(p) && Init(p, s)
    ensures Inv(p, s)
  {
    forall c | 0 <= c < Cards(p) ensures Tok.Inv(p.card, s.tok[c]) { Tok.InitInv(p.card, s.tok[c]); }
    forall r | 0 <= r < |p.rings| ensures RingOk(p, r) && Data.Inv(p.rings[r], s.ring[r]) {
      assert RingOk(p, r);
      InitControl(p.rings[r], s.ring[r]);
      Data.InitBuffers(p.rings[r], s.ring[r]);
    }
    forall c: nat, r: nat | c < Cards(p) && r < |p.rings| ensures LaneOk(p, r, s.tok[c].pc[r], s.ring[r].pc[c]) {
      LaneBegins(p, r);
    }
  }

  lemma LaneBegins(p: Net, r: nat)
    requires Valid(p) && r < |p.rings|
    ensures LaneOk(p, r, Tok.Pc(0, Tok.Reset), First(p.rings[r], 0))
  {
    assert RingOk(p, r);
    if |p.card.calls| > 0 { ChunkInside(p, r, 0, 0); }
  }

  /** A rank that has not finished is somewhere. */
  lemma LaneIsAt(p: Net, s: World, c: nat, r: nat)
    requires Inv(p, s) && c < Cards(p) && r < |p.rings| && s.tok[c].pc[r].g < |p.card.calls|
    ensures At(p, s, c, r)
  {
    var (tp, rp) := (s.tok[c].pc[r], s.ring[r].pc[c]);
    assert LaneOk(p, r, tp, rp) && RingOk(p, r);
    ChunkInside(p, r, tp.g, 0);
  }

  /** The rank's place in its ring goes on with its place in its turns. */
  lemma LaneStep(p: Net, r: nat, tp: Tok.Pc, rp: Pc)
    requires Valid(p) && r < |p.rings| && LaneOk(p, r, tp, rp) && tp.g < |p.card.calls|
    ensures
      var ringNext := RingNext(p, r, tp, rp);
      && (ringNext || tp.st.Reduce? ==> rp.g < |p.rings[r].chunks|)
      && LaneOk(p, r, if ringNext then tp else Tok.Advance(p.card, r, tp),
                if ringNext || tp.st.Reduce? then RingSchedule.Advance(p.rings[r], rp) else rp)
  {
    assert RingOk(p, r);
    ChunkInside(p, r, tp.g, if tp.st.Wait? then tp.st.i else 0);
    if RingNext(p, r, tp, rp) {
      LaneRing(p, r, tp, rp);
    } else {
      LaneToken(p, r, tp, rp);
    }
  }

  lemma LaneRing(p: Net, r: nat, tp: Tok.Pc, rp: Pc)
    requires Valid(p) && r < |p.rings| && LaneOk(p, r, tp, rp) && tp.g < |p.card.calls| && RingNext(p, r, tp, rp)
    ensures rp.g < |p.rings[r].chunks| && LaneOk(p, r, tp, RingSchedule.Advance(p.rings[r], rp))
  {
    assert RingOk(p, r);
    ChunkInside(p, r, tp.g, if tp.st.Wait? then tp.st.i else 0);
  }

  lemma LaneToken(p: Net, r: nat, tp: Tok.Pc, rp: Pc)
    requires Valid(p) && r < |p.rings| && LaneOk(p, r, tp, rp) && tp.g < |p.card.calls| && !RingNext(p, r, tp, rp)
    ensures tp.st.Reduce? ==> rp.g < |p.rings[r].chunks|
    ensures LaneOk(p, r, Tok.Advance(p.card, r, tp), if tp.st.Reduce? then RingSchedule.Advance(p.rings[r], rp) else rp)
  {
    assert RingOk(p, r);
    ChunkInside(p, r, tp.g, 0);
    if tp.g + 1 < |p.card.calls| { ChunkInside(p, r, tp.g + 1, 0); }
  }

  lemma StepInv(p: Net, s: World, c: nat, r: nat)
    requires Inv(p, s) && At(p, s, c, r) && Enabled(p, s, c, r)
    ensures Inv(p, Apply(p, s, c, r))
  {
    var s' := Apply(p, s, c, r);
    assert RingOk(p, r) && Tok.Inv(p.card, s.tok[c]) && Data.Inv(p.rings[r], s.ring[r]);
    if TokenMoves(p, s, c, r) { Tok.StepInv(p.card, s.tok[c], r); }
    if RingMoves(p, s, c, r) { Data.InvStep(p.rings[r], s.ring[r], c); }
    forall d: nat, q: nat | d < Cards(p) && q < |p.rings| ensures LaneOk(p, q, s'.tok[d].pc[q], s'.ring[q].pc[d]) {
      assert LaneOk(p, q, s.tok[d].pc[q], s.ring[q].pc[d]);
      LaneMoves(p, s, c, r, d, q);
    }
  }

  /** Only the rank that moves changes its places. */
  lemma LaneMoves(p: Net, s: World, c: nat, r: nat, d: nat, q: nat)
    requires Inv(p, s) && At(p, s, c, r) && Enabled(p, s, c, r) && d < Cards(p) && q < |p.rings|
    ensures
      var s' := Apply(p, s, c, r);
      && |s'.tok| == Cards(p) && |s'.ring| == |p.rings| && q < |s'.tok[d].pc| && d < |s'.ring[q].pc|
      && LaneOk(p, q, s'.tok[d].pc[q], s'.ring[q].pc[d])
  {
    assert LaneOk(p, q, s.tok[d].pc[q], s.ring[q].pc[d]);
    Moves(p, s, c, r);
    if d == c && q == r { LaneStep(p, r, s.tok[c].pc[r], s.ring[r].pc[c]); }
  }

  lemma Moves(p: Net, s: World, c: nat, r: nat)
    requires At(p, s, c, r) && Enabled(p, s, c, r)
    ensures
      var s' := Apply(p, s, c, r);
      && (TokenMoves(p, s, c, r) ==> s'.tok[c].pc == s.tok[c].pc[r := Tok.Advance(p.card, r, s.tok[c].pc[r])])
      && (RingMoves(p, s, c, r) ==>
            s'.ring[r].pc == s.ring[r].pc[c := RingSchedule.Advance(p.rings[r], s.ring[r].pc[c])])
  {
  }

  lemma {:induction false} RunInv(p: Net, tr: seq<World>)
    requires Valid(p) && Run(p, tr)
    ensures Inv(p, tr[|tr| - 1])
    decreases |tr|
  {
    if |tr| == 1 {
      InitInv(p, tr[0]);
    } else {
      var s := tr[|tr| - 2];
      assert tr[..|tr| - 1][|tr| - 2] == s;
      RunInv(p, tr[..|tr| - 1]);
      assert Step(p, s, tr[|tr| - 1]);
      var c: nat, r: nat :| At(p, s, c, r) && Enabled(p, s, c, r) && tr[|tr| - 1] == Apply(p, s, c, r);
      StepInv(p, s, c, r);
    }
  }

  // ---- who is furthest behind ---------------------------------------------------------------------------

  /** Call, chunk of all ranks in the call, stage. */
  datatype Place = Place(g: nat, k: nat, w: nat)

  function PlaceOf(p: Net, r: nat, tp: Tok.Pc, rp: Pc): Place
    requires Tok.Valid(p.card) && r < |p.rings| && 2 <= p.rings[r].n && tp.g <= |p.card.calls|
    requires tp.g < |p.card.calls| ==> Tok.PcOk(p.card, r, tp)
  {
    var w := Within(p.rings[r], rp);
    if tp.g == |p.card.calls| then Place(tp.g, 0, 0)
    else
      var (after, passes) := (p.card.calls[tp.g] + 1, Tok.Passes(p.card, tp.g, r));
      match tp.st
      case Reset => Place(tp.g, 0, if passes == 0 || rp.st.Load? then 2 else w)
      case Wait(i) => if LoadedIn(rp.st) && i > 0 then Place(tp.g, Turn(p, r, i - 1), w)
          else Place(tp.g, Turn(p, r, i), 0)
      case Reduce(i) => Place(tp.g, Turn(p, r, i), 1)
      case Pass(i) => Place(tp.g, Turn(p, r, i), 2)
      case Meet => if LoadedIn(rp.st) && passes > 0 then Place(tp.g, Turn(p, r, passes - 1), w)
          else Place(tp.g, after, 0)
      case Clear => Place(tp.g, after, 1)
  }

  /** How far a card is in a chunk. */
  function Within(ring: Ring, rp: Pc): nat
    requires 2 <= ring.n
  {
    if rp.g < |ring.chunks| then R.Rank(rp.st, Sends(ring.n, Kinds(ring, rp.g))) else 0
  }

  /** The number among a call's chunks of rank r's i-th. */
  function Turn(p: Net, r: nat, i: nat): nat {
    1 + Times(i, p.card.ranks) + r
  }

  predicate NotAfter(a: Place, b: Place) {
    a.g < b.g || (a.g == b.g && (a.k < b.k || (a.k == b.k && a.w <= b.w)))
  }

  lemma TurnOrder(p: Net, r: nat, i: nat, j: nat)
    requires Tok.Valid(p.card)
    ensures Turn(p, r, i) < Turn(p, r, j) <==> i < j
  {
    if i < j { TimesStep(i, j, p.card.ranks); }
    if j < i { TimesStep(j, i, p.card.ranks); }
  }

  lemma TurnInCall(p: Net, r: nat, g: nat, i: nat)
    requires Tok.Valid(p.card) && g < |p.card.calls| && i < Tok.Passes(p.card, g, r)
    ensures Turn(p, r, i) <= p.card.calls[g]
  {
    Tok.PassesFromIs(p.card.ranks, p.card.calls[g], r, i);
  }

  /** In a later chunk a card is further. */
  lemma FurtherChunk(ring: Ring, rp: Pc, rq: Pc)
    requires 2 <= ring.n && rp.g < rq.g <= |ring.chunks| && PcOk(ring, rp) && PcOk(ring, rq)
    ensures R.Position(ring, rp) <= R.Position(ring, rq)
  {
    R.StartMono(ring, rp.g + 1, rq.g);
  }

  /** In its ring a rank that sends is not ahead of one whose place is not before its own. */
  lemma PlaceOrdersRing(p: Net, r: nat, tp: Tok.Pc, rp: Pc, tq: Tok.Pc, rq: Pc)
    requires Valid(p) && r < |p.rings| && LaneOk(p, r, tp, rp) && LaneOk(p, r, tq, rq)
    requires tp.g < |p.card.calls| && RingNext(p, r, tp, rp)
    requires NotAfter(PlaceOf(p, r, tp, rp), PlaceOf(p, r, tq, rq))
    ensures R.Position(p.rings[r], rp) <= R.Position(p.rings[r], rq)
  {
    if tq.g > tp.g {
      LaterCall(p, r, tp, rp, tq, rq);
    } else if tp.st.Reset? {
      OpeningFirst(p, r, tp, rp, tq, rq);
    } else {
      SendingFirst(p, r, tp, rp, tq, rq, if tp.st.Wait? then tp.st.i - 1 else Tok.Passes(p.card, tp.g, r) - 1);
    }
  }

  lemma LaterCall(p: Net, r: nat, tp: Tok.Pc, rp: Pc, tq: Tok.Pc, rq: Pc)
    requires Valid(p) && r < |p.rings| && LaneOk(p, r, tp, rp) && LaneOk(p, r, tq, rq)
    requires tp.g < |p.card.calls| && RingNext(p, r, tp, rp) && tq.g > tp.g
    ensures R.Position(p.rings[r], rp) <= R.Position(p.rings[r], rq)
  {
    ChunkInside(p, r, tp.g, 0);
    BeginsMono(p, r, tp.g + 1, tq.g);
    FurtherChunk(p.rings[r], rp, rq);
  }

  lemma OpeningFirst(p: Net, r: nat, tp: Tok.Pc, rp: Pc, tq: Tok.Pc, rq: Pc)
    requires Valid(p) && r < |p.rings| && LaneOk(p, r, tp, rp) && LaneOk(p, r, tq, rq)
    requires tp.g == tq.g < |p.card.calls| && RingNext(p, r, tp, rp) && tp.st.Reset?
    requires NotAfter(PlaceOf(p, r, tp, rp), PlaceOf(p, r, tq, rq))
    ensures R.Position(p.rings[r], rp) <= R.Position(p.rings[r], rq)
  {
    if rq.g > rp.g { FurtherChunk(p.rings[r], rp, rq); }
  }

  lemma SendingFirst(p: Net, r: nat, tp: Tok.Pc, rp: Pc, tq: Tok.Pc, rq: Pc, i: nat)
    requires Valid(p) && r < |p.rings| && LaneOk(p, r, tp, rp) && LaneOk(p, r, tq, rq)
    requires tp.g == tq.g < |p.card.calls| && LoadedIn(rp.st) && rp.g == Begins(p, r, tp.g) + i < |p.rings[r].chunks|
    requires PlaceOf(p, r, tp, rp) == Place(tp.g, Turn(p, r, i), Within(p.rings[r], rp))
    requires i < Tok.Passes(p.card, tp.g, r)
    requires NotAfter(PlaceOf(p, r, tp, rp), PlaceOf(p, r, tq, rq))
    ensures R.Position(p.rings[r], rp) <= R.Position(p.rings[r], rq)
  {
    SendingNotBefore(p, r, tp, rp, tq, rq, i);
    if rq.g > rp.g { FurtherChunk(p.rings[r], rp, rq); }
  }

  lemma SendingNotBefore(p: Net, r: nat, tp: Tok.Pc, rp: Pc, tq: Tok.Pc, rq: Pc, i: nat)
    requires Valid(p) && r < |p.rings| && LaneOk(p, r, tp, rp) && LaneOk(p, r, tq, rq)
    requires tp.g == tq.g < |p.card.calls| && LoadedIn(rp.st) && rp.g == Begins(p, r, tp.g) + i < |p.rings[r].chunks|
    requires i < Tok.Passes(p.card, tp.g, r)
    requires NotAfter(Place(tp.g, Turn(p, r, i), Within(p.rings[r], rp)), PlaceOf(p, r, tq, rq))
    ensures rq.g > rp.g || (rq.g == rp.g && Within(p.rings[r], rp) <= Within(p.rings[r], rq))
  {
    match tq.st
    case Wait(j) =>
      TurnOrder(p, r, j, i);
      if j > 0 { TurnOrder(p, r, j - 1, i); }
    case Reduce(j) => TurnOrder(p, r, j, i);
    case Pass(j) => TurnOrder(p, r, j, i);
    case Meet => if Tok.Passes(p.card, tq.g, r) > 0 { TurnOrder(p, r, Tok.Passes(p.card, tq.g, r) - 1, i); }
    case _ =>
  }

  // ---- the token -------------------------------------------------------------------------------------------

  /** Who waits for the token in vain has a place after that of the rank that has it. */
  lemma HolderIsBefore(p: Net, s: Tok.State, r: nat, f: nat)
    requires Tok.Inv(p.card, s) && r < p.card.ranks && s.pc[r].g < |p.card.calls| && s.pc[r].st.Wait?
    requires Tok.Splits(p.card, s.pc[r].g) && s.pc[0].g == s.pc[r].g
    requires f == s.flag[Tok.Slot(s.pc[r].g)] != r
    ensures f < p.card.ranks && s.pc[f].g <= s.pc[r].g
    ensures s.pc[f].g == s.pc[r].g ==>
              && !s.pc[f].st.Meet? && !s.pc[f].st.Clear?
              && (!s.pc[f].st.Reset? ==> Turn(p, f, s.pc[f].st.i) < Turn(p, r, s.pc[r].st.i))
  {
    var (g, i) := (s.pc[r].g, s.pc[r].st.i);
    var lap := s.lap[Tok.Slot(g)];
    assert Tok.TurnOk(p.card, s, r) && Tok.TurnOk(p.card, s, f) && Tok.PcOk(p.card, r, s.pc[r]);
    Tok.HolderHasTurn(p.card, g, f, r, lap, i);
  }

  lemma WhoseTurn(p: Net, s: World, c: nat, r: nat)
    requires Inv(p, s) && At(p, s, c, r) && s.tok[c].pc[r].st.Wait? && TokenMoves(p, s, c, r)
    requires forall q: nat :: q < p.card.ranks ==> CardPlaces(p, s, c, r, q)
    ensures Tok.Enabled(p.card, s.tok[c], r)
  {
    var t := s.tok[c];
    var g := t.pc[r].g;
    assert Tok.Inv(p.card, t) && Tok.CloseOk(p.card, t, 0, r) && CardPlaces(p, s, c, r, 0);
    if Tok.Splits(p.card, g) && t.flag[Tok.Slot(g)] != r {
      var f := TokenElsewhere(p, s, c, r);
      assert false;
    }
  }

  lemma TokenElsewhere(p: Net, s: World, c: nat, r: nat) returns (f: nat)
    requires Inv(p, s) && At(p, s, c, r) && s.tok[c].pc[r].st.Wait? && TokenMoves(p, s, c, r)
    requires
      var t := s.tok[c];
      Tok.Splits(p.card, t.pc[r].g) && t.flag[Tok.Slot(t.pc[r].g)] != r && t.pc[0].g == t.pc[r].g
    ensures f < p.card.ranks && !CardPlaces(p, s, c, r, f)
  {
    var t := s.tok[c];
    f := t.flag[Tok.Slot(t.pc[r].g)];
    HolderIsBefore(p, t, r, f);
    assert LaneOk(p, f, t.pc[f], s.ring[f].pc[c]) && LaneOk(p, r, t.pc[r], s.ring[r].pc[c]);
    if t.pc[f].st.Wait? && t.pc[f].st.i > 0 { TurnOrder(p, f, t.pc[f].st.i - 1, t.pc[f].st.i); }
  }

  /** Rank q of card c is not before rank r of it. */
  ghost predicate CardPlaces(p: Net, s: World, c: nat, r: nat, q: nat)
    requires Inv(p, s) && c < Cards(p) && r < |p.rings| && q < |p.rings|
  {
    NotAfter(LanePlace(p, s, c, r), LanePlace(p, s, c, q))
  }

  ghost function LanePlace(p: Net, s: World, c: nat, r: nat): Place
    requires Inv(p, s) && c < Cards(p) && r < |p.rings|
  {
    assert LaneOk(p, r, s.tok[c].pc[r], s.ring[r].pc[c]);
    PlaceOf(p, r, s.tok[c].pc[r], s.ring[r].pc[c])
  }

  /** At the meeting of a call, whoever is not before is there. */
  lemma EveryoneIsThere(p: Net, s: World, c: nat, r: nat, t: nat)
    requires Inv(p, s) && At(p, s, c, r) && s.tok[c].pc[r].st.Meet? && TokenMoves(p, s, c, r) && t < |p.rings|
    requires CardPlaces(p, s, c, r, t)
    ensures Tok.Reached(s.tok[c].pc[t], s.tok[c].pc[r].g)
    ensures s.tok[c].pc[t].g == s.tok[c].pc[r].g ==> !RingNext(p, t, s.tok[c].pc[t], s.ring[t].pc[c])
  {
    var (tq, rq) := (s.tok[c].pc[t], s.ring[t].pc[c]);
    assert LaneOk(p, t, tq, rq) && LaneOk(p, r, s.tok[c].pc[r], s.ring[r].pc[c]);
    if tq.g == s.tok[c].pc[r].g {
      match tq.st
      case Wait(j) =>
        TurnInCall(p, t, tq.g, j);
        if j > 0 { TurnInCall(p, t, tq.g, j - 1); }
      case Reduce(j) => TurnInCall(p, t, tq.g, j);
      case Pass(j) => TurnInCall(p, t, tq.g, j);
      case Meet => if Tok.Passes(p.card, tq.g, t) > 0 { TurnInCall(p, t, tq.g, Tok.Passes(p.card, tq.g, t) - 1); }
      case _ =>
    }
  }

  // ---- somebody can always go on -----------------------------------------------------------------------------

  /** No rank of any card is before rank r of card c. */
  ghost predicate Least(p: Net, s: World, c: nat, r: nat, d: nat, q: nat)
    requires Inv(p, s) && c < Cards(p) && r < |p.rings| && d < Cards(p) && q < |p.rings|
  {
    NotAfter(LanePlace(p, s, c, r), LanePlace(p, s, d, q))
  }

  predicate LeastIn(row: seq<Place>, x: Place) {
    forall q :: 0 <= q < |row| ==> NotAfter(x, row[q])
  }

  lemma {:induction false} LeastOfRow(row: seq<Place>) returns (r: nat)
    requires row != []
    ensures r < |row| && LeastIn(row, row[r])
    decreases |row|
  {
    var k := |row| - 1;
    if k == 0 {
      r := 0;
    } else {
      var before := row[..k];
      r := LeastOfRow(before);
      assert before[r] == row[r] && forall q :: 0 <= q < k ==> row[q] == before[q];
      if !NotAfter(row[r], row[k]) { r := k; }
    }
  }

  lemma {:induction false} LeastOfRows(rows: seq<seq<Place>>, k: nat) returns (c: nat, r: nat)
    requires 0 < k <= |rows| && forall d :: 0 <= d < k ==> rows[d] != []
    ensures c < k && r < |rows[c]| && forall d :: 0 <= d < k ==> LeastIn(rows[d], rows[c][r])
    decreases k
  {
    var q := LeastOfRow(rows[k - 1]);
    c, r := k - 1, q;
    if k > 1 {
      var c0, r0 := LeastOfRows(rows, k - 1);
      if NotAfter(rows[c0][r0], rows[k - 1][q]) { c, r := c0, r0; }
    }
  }

  ghost function Places(p: Net, s: World): (rows: seq<seq<Place>>)
    requires Inv(p, s)
    ensures |rows| == Cards(p) && forall c :: 0 <= c < Cards(p) ==> |rows[c]| == |p.rings|
    ensures forall c: nat, r: nat :: c < Cards(p) && r < |p.rings| ==> rows[c][r] == LanePlace(p, s, c, r)
  {
    seq(Cards(p), c requires 0 <= c < Cards(p) =>
      seq(|p.rings|, r requires 0 <= r < |p.rings| => LanePlace(p, s, c, r)))
  }

  lemma LeastOfAll(p: Net, s: World) returns (c: nat, r: nat)
    requires Inv(p, s) && Cards(p) > 0
    ensures c < Cards(p) && r < |p.rings| && IsLeast(p, s, c, r)
  {
    var rows := Places(p, s);
    c, r := LeastOfRows(rows, |rows|);
    forall d: nat, q: nat | d < Cards(p) && q < |p.rings| ensures Least(p, s, c, r, d, q) {
      assert LeastIn(rows[d], rows[c][r]) && rows[d][q] == LanePlace(p, s, d, q);
    }
  }

  ghost predicate IsLeast(p: Net, s: World, c: nat, r: nat)
    requires Inv(p, s) && c < Cards(p) && r < |p.rings|
  {
    forall d: nat, q: nat :: d < Cards(p) && q < |p.rings| ==> Least(p, s, c, r, d, q)
  }

  ghost predicate CanStep(p: Net, s: World, c: nat, r: nat) {
    At(p, s, c, r) && Enabled(p, s, c, r)
  }

  ghost predicate SomeoneCanStep(p: Net, s: World) {
    exists c: nat, r: nat :: CanStep(p, s, c, r)
  }

  lemma LeastGoesOn(p: Net, s: World, c: nat, r: nat)
    requires Inv(p, s) && c < Cards(p) && r < |p.rings| && s.tok[c].pc[r].g < |p.card.calls|
    requires IsLeast(p, s, c, r)
    ensures CanStep(p, s, c, r)
  {
    LaneIsAt(p, s, c, r);
    if RingNext(p, r, s.tok[c].pc[r], s.ring[r].pc[c]) {
      LeastSends(p, s, c, r);
    } else {
      forall q: nat | q < p.card.ranks ensures CardPlaces(p, s, c, r, q) {
        assert Least(p, s, c, r, c, q);
      }
      if s.tok[c].pc[r].st.Wait? {
        WhoseTurn(p, s, c, r);
      } else if s.tok[c].pc[r].st.Meet? {
        forall t: nat | t < p.card.ranks
          ensures Tok.Reached(s.tok[c].pc[t], s.tok[c].pc[r].g)
          ensures s.tok[c].pc[t].g == s.tok[c].pc[r].g ==> !RingNext(p, t, s.tok[c].pc[t], s.ring[t].pc[c])
        {
          EveryoneIsThere(p, s, c, r, t);
        }
      } else {
        assert LaneOk(p, r, s.tok[c].pc[r], s.ring[r].pc[c]);
      }
    }
  }

  lemma LeastSends(p: Net, s: World, c: nat, r: nat)
    requires Inv(p, s) && At(p, s, c, r) && RingNext(p, r, s.tok[c].pc[r], s.ring[r].pc[c])
    requires IsLeast(p, s, c, r)
    ensures RingMachine.Enabled(p.rings[r], s.ring[r], c)
  {
    assert Data.Inv(p.rings[r], s.ring[r]) && LaneOk(p, r, s.tok[c].pc[r], s.ring[r].pc[c]);
    forall d: nat | d < Cards(p)
      ensures R.Position(p.rings[r], s.ring[r].pc[c]) <= R.Position(p.rings[r], s.ring[r].pc[d])
    {
      assert Least(p, s, c, r, d, r) && LaneOk(p, r, s.tok[d].pc[r], s.ring[r].pc[d]);
      PlaceOrdersRing(p, r, s.tok[c].pc[r], s.ring[r].pc[c], s.tok[d].pc[r], s.ring[r].pc[d]);
    }
    R.LastIsEnabled(p.rings[r], s.ring[r], c);
  }

  /** As long as some rank of some card is not finished, some rank can take a step. */
  lemma TokenRingsNeverDeadlock(p: Net, tr: seq<World>, d: nat, q: nat)
    requires Valid(p) && Run(p, tr) && d < Cards(p) && q < |p.rings|
    requires tr[|tr| - 1].tok[d].pc[q].g < |p.card.calls|
    ensures SomeoneCanStep(p, tr[|tr| - 1])
  {
    var s := tr[|tr| - 1];
    RunInv(p, tr);
    assert RingOk(p, 0);
    var c, r := LeastOfAll(p, s);
    assert Least(p, s, c, r, d, q);
    LeastGoesOn(p, s, c, r);
  }

  /** What a rank has left is delivered: every chunk of its earlier calls. */
  lemma TokenRingsDeliver(p: Net, tr: seq<World>, c: nat, r: nat, h: nat)
    requires Valid(p) && Run(p, tr) && c < Cards(p) && r < |p.rings|
    requires
      var g := tr[|tr| - 1].tok[c].pc[r].g;
      g <= |p.card.calls| && h < Begins(p, r, g)
    ensures h < |p.rings[r].chunks| && 2 <= p.rings[r].n && Data.Complete(p.rings[r], tr[|tr| - 1].ring[r], c, h)
  {
    var s := tr[|tr| - 1];
    RunInv(p, tr);
    assert RingOk(p, r) && Data.Inv(p.rings[r], s.ring[r]) && LaneOk(p, r, s.tok[c].pc[r], s.ring[r].pc[c]);
  }

  // ---- runs are bounded -----------------------------------------------------------------------------------------

  function Sum(xs: seq<nat>): nat {
    if xs == [] then 0 else Sum(xs[..|xs| - 1]) + xs[|xs| - 1]
  }

  /** Sums grow with their terms, and strictly if some term does. */
  lemma {:induction false} SumGrows(xs: seq<nat>, ys: seq<nat>, i: nat)
    requires |xs| == |ys| && forall j :: 0 <= j < |xs| ==> xs[j] <= ys[j]
    ensures Sum(xs) <= Sum(ys) && (i < |xs| && xs[i] < ys[i] ==> Sum(xs) < Sum(ys))
    decreases |xs|
  {
    if xs != [] { SumGrows(xs[..|xs| - 1], ys[..|ys| - 1], i); }
  }

  ghost predicate RingFine(ring: Ring, t: RingMachine.State) {
    2 <= ring.n && PcsOk(ring, t)
  }

  ghost predicate Fine(p: Net, s: World) {
    && (forall c :: 0 <= c < |s.tok| ==> Tok.PcsOk(p.card, s.tok[c]))
    && |s.ring| == |p.rings| && forall r :: 0 <= r < |p.rings| ==> RingFine(p.rings[r], s.ring[r])
  }

  lemma InvIsFine(p: Net, s: World)
    requires Inv(p, s)
    ensures Fine(p, s)
  {
    forall c | 0 <= c < |s.tok| ensures Tok.PcsOk(p.card, s.tok[c]) { assert Tok.Inv(p.card, s.tok[c]); }
    forall r | 0 <= r < |p.rings| ensures RingFine(p.rings[r], s.ring[r]) {
      assert RingOk(p, r) && Data.Inv(p.rings[r], s.ring[r]);
    }
  }

  /** How far every card's token and every ring is. */
  ghost function TokTotals(p: Net, s: World): (xs: seq<nat>)
    requires Fine(p, s)
    ensures |xs| == |s.tok| && forall c :: 0 <= c < |xs| ==> xs[c] == Tok.Total(p.card, s.tok[c], p.card.ranks)
  {
    seq(|s.tok|, c requires 0 <= c < |s.tok| => Tok.Total(p.card, s.tok[c], p.card.ranks))
  }

  ghost function RingTotals(p: Net, s: World): (xs: seq<nat>)
    requires Fine(p, s)
    ensures |xs| == |p.rings| && forall r :: 0 <= r < |xs| ==> xs[r] == R.Total(p.rings[r], s.ring[r], p.rings[r].n)
  {
    seq(|p.rings|, r requires 0 <= r < |p.rings| => R.Total(p.rings[r], s.ring[r], p.rings[r].n))
  }

  ghost function Done(p: Net, s: World): nat
    requires Fine(p, s)
  {
    Sum(TokTotals(p, s)) + Sum(RingTotals(p, s))
  }

  lemma DoneGrows(p: Net, s: World, c: nat, r: nat)
    requires At(p, s, c, r) && Enabled(p, s, c, r) && Fine(p, s) && Fine(p, Apply(p, s, c, r))
    ensures Done(p, Apply(p, s, c, r)) > Done(p, s)
  {
    var s' := Apply(p, s, c, r);
    if TokenMoves(p, s, c, r) { Tok.TotalGrows(p.card, s.tok[c], r, p.card.ranks); }
    if RingMoves(p, s, c, r) { RingGrows(p, s, c, r, s'.ring[r]); }
    SumGrows(TokTotals(p, s), TokTotals(p, s'), c);
    SumGrows(RingTotals(p, s), RingTotals(p, s'), r);
  }

  lemma RingGrows(p: Net, s: World, c: nat, r: nat, t: RingMachine.State)
    requires At(p, s, c, r) && Enabled(p, s, c, r) && RingMoves(p, s, c, r) && RingFine(p.rings[r], s.ring[r])
    requires t == RingMachine.Apply(p.rings[r], s.ring[r], c) && RingFine(p.rings[r], t)
    ensures R.Total(p.rings[r], t, p.rings[r].n) > R.Total(p.rings[r], s.ring[r], p.rings[r].n)
  {
    R.TotalGrows(p.rings[r], s.ring[r], t, c, p.rings[r].n);
  }

  lemma {:induction false} RunTotal(p: Net, tr: seq<World>)
    requires Valid(p) && Run(p, tr)
    ensures Inv(p, tr[|tr| - 1]) && Fine(p, tr[|tr| - 1]) && |tr| <= 1 + Done(p, tr[|tr| - 1])
    decreases |tr|
  {
    RunInv(p, tr);
    InvIsFine(p, tr[|tr| - 1]);
    if |tr| > 1 {
      var before := tr[..|tr| - 1];
      RunTotal(p, before);
      var (s, s') := (before[|tr| - 2], tr[|tr| - 1]);
      assert Step(p, tr[|tr| - 2], tr[|tr| - 1]);
      var c: nat, r: nat :| At(p, s, c, r) && Enabled(p, s, c, r) && s' == Apply(p, s, c, r);
      DoneGrows(p, s, c, r);
    }
  }

  /** The lengths of the programs of all cards and all rings. */
  function Lengths(p: Net): nat
    requires Tok.Valid(p.card) && p.rings != [] && forall r :: 0 <= r < |p.rings| ==> 2 <= p.rings[r].n
  {
    Sum(seq(Cards(p), _ => Tok.Length(p.card, p.card.ranks))) + Sum(RingLengths(p))
  }

  function RingLengths(p: Net): (xs: seq<nat>)
    requires forall r :: 0 <= r < |p.rings| ==> 2 <= p.rings[r].n
    ensures |xs| == |p.rings|
    ensures forall r :: 0 <= r < |xs| ==> xs[r] == p.rings[r].n * R.Start(p.rings[r], |p.rings[r].chunks|)
  {
    seq(|p.rings|, r requires 0 <= r < |p.rings| => p.rings[r].n * R.Start(p.rings[r], |p.rings[r].chunks|))
  }

  lemma DoneBound(p: Net, s: World)
    requires Tok.Valid(p.card) && p.rings != [] && Fine(p, s) && |s.tok| == Cards(p)
    ensures Done(p, s) <= Lengths(p)
  {
    var lengths := seq(Cards(p), _ => Tok.Length(p.card, p.card.ranks));
    forall c | 0 <= c < |s.tok| ensures TokTotals(p, s)[c] <= lengths[c] {
      Tok.TotalBound(p.card, s.tok[c], p.card.ranks);
    }
    forall r | 0 <= r < |p.rings| ensures RingTotals(p, s)[r] <= RingLengths(p)[r] {
      assert RingFine(p.rings[r], s.ring[r]);
      R.TotalBound(p.rings[r], s.ring[r], p.rings[r].n);
    }
    SumGrows(TokTotals(p, s), lengths, 0);
    SumGrows(RingTotals(p, s), RingLengths(p), 0);
  }

  /** Runs are bounded, so a run that cannot be extended has finished on every rank of every
      card, with all results delivered. */
  lemma TokenRingsTerminate(p: Net, tr: seq<World>)
    requires Valid(p) && Run(p, tr)
    ensures forall r :: 0 <= r < |p.rings| ==> 2 <= p.rings[r].n
    ensures |tr| <= 1 + Lengths(p)
  {
    forall r | 0 <= r < |p.rings| ensures 2 <= p.rings[r].n { assert RingOk(p, r); }
    RunTotal(p, tr);
    DoneBound(p, tr[|tr| - 1]);
  }
}
