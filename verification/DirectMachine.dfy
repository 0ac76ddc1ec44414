/** All cards of the direct AllReduce, over any sequence of calls, in any interleaving.

    `flag[c][p]` is the counter that card p wrote last at card c, `shake[c]` flag 1 of card
    c.  A half of a buffer holds, by slot, what was written last for one chunk; a write for
    another chunk is taken to destroy it. */
module DirectMachine {
  import opened Cycle
  import opened Terms
  import opened DirectAllReduce

  datatype Half = Half(chunk: nat, slots: map<nat, Term>)

  function Write(m: Half, k: nat, j: nat, v: Term): Half {
    Half(k, if m.chunk == k then m.slots[j := v] else map[j := v])
  }

  function Read(m: Half, k: nat, j: nat): Term {
    if m.chunk == k && j in m.slots then m.slots[j] else Junk
  }

  datatype State = State(
    pc: seq<Pc>, shake: seq<nat>, flag: seq<seq<nat>>,
      inb: seq<seq<Half>>, out: seq<seq<Half>>, user: seq<map<(nat, nat), Term>>)

  predicate Shape(p: Mesh, s: State) {
    && |s.pc| == |s.shake| == |s.flag| == |s.inb| == |s.out| == |s.user| == p.n
    && (forall c :: 0 <= c < p.n ==> |s.flag[c]| == p.n && |s.inb[c]| == 2 && |s.out[c]| == 2)
  }

  ghost predicate At(p: Mesh, s: State, c: nat) {
    Valid(p) && Shape(p, s) && c < p.n && s.pc[c].k < |p.chunks| && PcOk(p, s.pc[c])
  }

  function HalfOf(p: Mesh, k: nat): (h: nat)
    requires Valid(p) && k < |p.chunks|
    ensures h < 2
  {
    p.chunks[k].half
  }

  function Count(p: Mesh, k: nat, j: nat): nat
    requires Valid(p) && k < |p.chunks| && j < p.n
  {
    p.chunks[k].counts[j]
  }

  /** prevcnt when chunk k begins. */
  function Shakes(p: Mesh, k: nat): nat
    requires 2 <= p.n && k <= |p.chunks|
  {
    if k == 0 then p.prevcnt else Shakes(p, k - 1) + if p.chunks[k - 1].opens then p.n - 1 else 0
  }

  function FlagValue(p: Mesh, k: nat, exchange: nat): nat {
    p.a2acnt + 2 * k + exchange
  }

  predicate Enabled(p: Mesh, s: State, c: nat)
    requires At(p, s, c)
  {
    var Pc(k, st) := s.pc[c];
    match st
    case AwaitShake(i) => s.shake[c] >= Shakes(p, k) + i
    case Await1(i) => Count(p, k, c) > 0 ==> s.flag[c][Peer(p.n, c, i)] >= FlagValue(p, k, 1)
    case Await2(i) => Count(p, k, Peer(p.n, c, i)) > 0 ==> s.flag[c][Peer(p.n, c, i)] >= FlagValue(p, k, 2)
    case _ => true
  }

  /** The slices of one chunk in card order, as card c finds them: its own in its inBuff,
      the others in its outBuff. */
  function Slices(p: Mesh, s: State, c: nat, k: nat, n: nat): (xs: seq<Term>)
    requires Valid(p) && Shape(p, s) && c < p.n && k < |p.chunks|
    ensures |xs| == n
    ensures forall i :: 0 <= i < n ==> xs[i] == if i == c then Read(s.inb[c][HalfOf(p, k)], k, c)
      else Read(s.out[c][HalfOf(p, k)], k, i)
  {
    seq(n, i requires 0 <= i < n => if i == c then Read(s.inb[c][HalfOf(p, k)], k, c)
      else Read(s.out[c][HalfOf(p, k)], k, i))
  }

  /** What loading a chunk leaves in the first j slots. */
  function Image(k: nat, c: nat, n: nat): (m: map<nat, Term>)
    ensures forall j :: j in m <==> 0 <= j < n
    ensures forall j :: j in m ==> m[j] == Leaf(c, k, j)
  {
    map j | 0 <= j < n :: Leaf(c, k, j)
  }

  function SetHalf(halves: seq<Half>, h: nat, m: Half): (r: seq<Half>)
    requires h < |halves|
    ensures |r| == |halves|
  {
    halves[h := m]
  }

  function SetFlag(flags: seq<nat>, q: nat, v: nat): (r: seq<nat>)
    requires q < |flags|
    ensures |r| == |flags|
  {
    flags[q := v]
  }

  function ShakeAfter(p: Mesh, s: State, c: nat): seq<nat>
    requires At(p, s, c)
  {
    var Pc(k, st) := s.pc[c];
    if st.Shake? then s.shake[Prev(p.n, c) := Shakes(p, k) + st.i] else s.shake
  }

  function FlagAfter(p: Mesh, s: State, c: nat): seq<seq<nat>>
    requires At(p, s, c)
  {
    var Pc(k, st) := s.pc[c];
    match st
    case Flag1(i) => var to := Peer(p.n, c, i); s.flag[to := SetFlag(s.flag[to], c, FlagValue(p, k, 1))]
    case Flag2(i) => var to := Peer(p.n, c, i); s.flag[to := SetFlag(s.flag[to], c, FlagValue(p, k, 2))]
    case _ => s.flag
  }

  function InAfter(p: Mesh, s: State, c: nat): seq<seq<Half>>
    requires At(p, s, c)
  {
    var Pc(k, st) := s.pc[c];
    var h := HalfOf(p, k);
    match st
    case Load => s.inb[c := SetHalf(s.inb[c], h, Half(k, Image(k, c, p.n)))]
    case Fold =>
      if Count(p, k, c) == 0 then s.inb
      else s.inb[c := SetHalf(s.inb[c], h, Write(s.inb[c][h], k, c, FoldTerms(Slices(p, s, c, k, p.n))))]
    case Push2(i) =>
      var to := Peer(p.n, c, i);
      if Count(p, k, c) == 0 then s.inb
      else s.inb[to := SetHalf(s.inb[to], h, Write(s.inb[to][h], k, c, Read(s.inb[c][h], k, c)))]
    case _ => s.inb
  }

  function OutAfter(p: Mesh, s: State, c: nat): seq<seq<Half>>
    requires At(p, s, c)
  {
    var Pc(k, st) := s.pc[c];
    var h := HalfOf(p, k);
    match st
    case Push1(i) =>
      var to := Peer(p.n, c, i);
      if Count(p, k, to) == 0 then s.out
      else s.out[to := SetHalf(s.out[to], h, Write(s.out[to][h], k, c, Read(s.inb[c][h], k, to)))]
    case _ => s.out
  }

  function AllSlots(k: nat, m: Half, n: nat): (r: map<(nat, nat), Term>)
    ensures forall x :: x in r <==> x.0 == k && 0 <= x.1 < n
    ensures forall x :: x in r ==> r[x] == Read(m, k, x.1)
  {
    map j | 0 <= j < n :: (k, j) := Read(m, k, j)
  }

  function UserAfter(p: Mesh, s: State, c: nat): seq<map<(nat, nat), Term>>
    requires At(p, s, c)
  {
    var Pc(k, st) := s.pc[c];
    if st == CopyOut then s.user[c := s.user[c] + AllSlots(k, s.inb[c][HalfOf(p, k)], p.n)] else s.user
  }

  function Apply(p: Mesh, s: State, c: nat): State
    requires At(p, s, c)
  {
    State(s.pc[c := Advance(p, s.pc[c])], ShakeAfter(p, s, c), FlagAfter(p, s, c), InAfter(p, s, c),
      OutAfter(p, s, c), UserAfter(p, s, c))
  }

  ghost predicate Init(p: Mesh, s: State) {
    && Shape(p, s)
    && (forall c :: 0 <= c < p.n ==> s.pc[c] == First(p, 0) && s.shake[c] <= p.prevcnt)
    && (forall c, d :: 0 <= c < p.n && 0 <= d < p.n ==> s.flag[c][d] <= p.a2acnt)
  }

  // ---- what has happened ----------------------------------------------------------------

  predicate Past(p: Mesh, pc: Pc, k: nat, st: Stage) {
    pc.k > k || (pc.k == k && Rank(p.n, pc.st) > Rank(p.n, st))
  }

  /** Card c has sent its first (second) flag of chunk k to card d, or pushed for it. */
  predicate Sent1(p: Mesh, pc: Pc, c: nat, d: nat, k: nat)
    requires c < p.n && d < p.n
  {
    Past(p, pc, k, Flag1(Place(p.n, c, d)))
  }

  predicate Sent2(p: Mesh, pc: Pc, c: nat, d: nat, k: nat)
    requires c < p.n && d < p.n
  {
    Past(p, pc, k, Flag2(Place(p.n, c, d)))
  }

  predicate Pushed1(p: Mesh, pc: Pc, c: nat, d: nat, k: nat)
    requires c < p.n && d < p.n
  {
    Past(p, pc, k, Push1(Place(p.n, c, d)))
  }

  predicate Pushed2(p: Mesh, pc: Pc, c: nat, d: nat, k: nat)
    requires c < p.n && d < p.n
  {
    Past(p, pc, k, Push2(Place(p.n, c, d)))
  }

  /** The value that c wrote last at d. */
  function Written(p: Mesh, pc: Pc, c: nat, d: nat): nat
    requires c < p.n && d < p.n
  {
    p.a2acnt + 2 * pc.k
    + if pc.k == |p.chunks| then 0
      else (if Sent1(p, pc, c, d, pc.k) then 1 else 0) + (if Sent2(p, pc, c, d, pc.k) then 1 else 0)
  }

  /** Handshakes sent, and awaited. */
  function Shook(p: Mesh, pc: Pc): nat
    requires 2 <= p.n && pc.k <= |p.chunks|
  {
    Shakes(p, pc.k) +
    if pc.k == |p.chunks| || !p.chunks[pc.k].opens then 0
    else match pc.st case Shake(i) => (if i > 0 then i - 1 else 0) case AwaitShake(i) => i case _ => p.n - 1
  }

  function Shaken(p: Mesh, pc: Pc): nat
    requires 2 <= p.n && pc.k <= |p.chunks|
  {
    Shakes(p, pc.k) +
    if pc.k == |p.chunks| || !p.chunks[pc.k].opens then 0
    else
      match pc.st
      case Shake(i) => if i > 0 then i - 1 else 0
      case AwaitShake(i) => if i > 0 then i - 1 else 0
      case _ => p.n - 1
  }

  // ---- control invariant ------------------------------------------------------------------

  ghost predicate PcsOk(p: Mesh, s: State) {
    Valid(p) && Shape(p, s) && forall c :: 0 <= c < p.n ==> PcOk(p, s.pc[c])
  }

  /** Between c and the next card, whose handshakes c waits for. */
  ghost predicate ShakeOk(p: Mesh, s: State, c: nat)
    requires PcsOk(p, s) && c < p.n
  {
    var d := Next(p.n, c);
    && Shaken(p, s.pc[c]) <= Shook(p, s.pc[d])
    && (s.shake[c] == Shook(p, s.pc[d]) || (Shook(p, s.pc[d]) == p.prevcnt && s.shake[c] <= p.prevcnt))
  }

  /** What c waits for from d was sent, unless there is nothing to wait for. */
  ghost predicate WaitOk(p: Mesh, s: State, c: nat, d: nat, k: nat)
    requires PcsOk(p, s) && c < p.n && d < p.n
  {
    k < |p.chunks| && c != d ==>
      && (Past(p, s.pc[c], k, Await1(Place(p.n, c, d))) && Count(p, k, c) > 0 ==> Sent1(p, s.pc[d], d, c, k))
      && (Past(p, s.pc[c], k, Await2(Place(p.n, c, d))) && Count(p, k, d) > 0 ==> Sent2(p, s.pc[d], d, c, k))
  }

  ghost predicate FlagOk(p: Mesh, s: State, c: nat, d: nat)
    requires PcsOk(p, s) && c < p.n && d < p.n
  {
    c != d ==>
      || s.flag[c][d] == Written(p, s.pc[d], d, c)
      || (Written(p, s.pc[d], d, c) == p.a2acnt && s.flag[c][d] <= p.a2acnt)
  }

  ghost predicate Control(p: Mesh, s: State) {
    && PcsOk(p, s)
    && (forall c :: 0 <= c < p.n ==> ShakeOk(p, s, c))
    && (forall c: nat, d: nat, k: nat :: c < p.n && d < p.n ==> WaitOk(p, s, c, d, k))
    && (forall c: nat, d: nat :: c < p.n && d < p.n ==> FlagOk(p, s, c, d))
  }

  lemma InitControl(p: Mesh, s: State)
    requires Valid(p) && Init(p, s)
    ensures Control(p, s)
  {
    assert forall c :: 0 <= c < p.n ==> s.pc[c] == First(p, 0);
    assert PcsOk(p, s);
  }

  lemma StepPcs(p: Mesh, s: State, c: nat)
    requires PcsOk(p, s) && At(p, s, c)
    ensures PcsOk(p, Apply(p, s, c))
  {
  }

  /** The stages of the exchange have ranks of their own. */
  lemma RankUnique(n: nat, a: Stage, b: Stage)
    requires 2 <= n && StageOk(n, true, a) && StageOk(n, true, b) && Rank(n, a) == Rank(n, b) >= 2 * n
    ensures a == b
  {
  }

  lemma NextRank(p: Mesh, pc: Pc)
    requires Valid(p) && pc.k < |p.chunks| && PcOk(p, pc) && Rank(p.n, pc.st) >= 2 * p.n && pc.st != CopyOut
    ensures Advance(p, pc).k == pc.k
    ensures forall st :: StageOk(p.n, false, st) && Rank(p.n, pc.st) < Rank(p.n, st) ==>
                           Rank(p.n, Advance(p, pc).st) <= Rank(p.n, st)
  {
  }

  /** Of the exchange, a step adds the stage that was executed, and nothing else. */
  lemma PastStep(p: Mesh, pc: Pc, k: nat, st: Stage)
    requires Valid(p) && pc.k < |p.chunks| && PcOk(p, pc) && StageOk(p.n, false, st) && Rank(p.n, st) >= 2 * p.n
      && st != CopyOut
    ensures Past(p, Advance(p, pc), k, st) <==> Past(p, pc, k, st) || (pc.k == k && pc.st == st)
  {
    if pc.st == CopyOut {
      PastCopyOut(p, pc, k, st);
    } else if pc.k == k && Rank(p.n, pc.st) >= 2 * p.n {
      RankGrows(p, pc);
      NextRank(p, pc);
      if Rank(p.n, pc.st) == Rank(p.n, st) { RankUnique(p.n, pc.st, st); }
    } else {
      PastOpening(p, pc, k, st);
    }
  }

  lemma PastCopyOut(p: Mesh, pc: Pc, k: nat, st: Stage)
    requires Valid(p) && pc.k < |p.chunks| && pc.st == CopyOut && StageOk(p.n, false, st)
      && Rank(p.n, st) >= 2 * p.n && st != CopyOut
    ensures Past(p, Advance(p, pc), k, st) <==> Past(p, pc, k, st)
  {
  }

  lemma PastOpening(p: Mesh, pc: Pc, k: nat, st: Stage)
    requires Valid(p) && pc.k < |p.chunks| && PcOk(p, pc) && pc.st != CopyOut && Rank(p.n, st) >= 2 * p.n
    requires pc.k != k || Rank(p.n, pc.st) < 2 * p.n
    ensures Past(p, Advance(p, pc), k, st) <==> Past(p, pc, k, st)
  {
  }

  lemma WrittenStep(p: Mesh, pc: Pc, c: nat, d: nat)
    requires Valid(p) && pc.k < |p.chunks| && PcOk(p, pc) && c < p.n && d < p.n && c != d
    ensures
      var i := Place(p.n, c, d);
      Written(p, Advance(p, pc), c, d) ==
        if pc.st == Flag1(i) then FlagValue(p, pc.k, 1) else if pc.st == Flag2(i) then FlagValue(p, pc.k, 2)
            else Written(p, pc, c, d)
  {
  }

  lemma ShakesStep(p: Mesh, pc: Pc)
    requires Valid(p) && pc.k < |p.chunks| && PcOk(p, pc)
    ensures Shook(p, Advance(p, pc)) == Shook(p, pc) + if pc.st.Shake? then 1 else 0
    ensures Shaken(p, Advance(p, pc)) == Shaken(p, pc) + if pc.st.AwaitShake? then 1 else 0
    ensures pc.st.Shake? ==> Shook(p, pc) + 1 == Shakes(p, pc.k) + pc.st.i
    ensures pc.st.AwaitShake? ==> Shaken(p, pc) + 1 == Shakes(p, pc.k) + pc.st.i
  {
    ShookStep(p, pc);
    ShakenStep(p, pc);
  }

  lemma ShookStep(p: Mesh, pc: Pc)
    requires Valid(p) && pc.k < |p.chunks| && PcOk(p, pc)
    ensures Shook(p, Advance(p, pc)) == Shook(p, pc) + if pc.st.Shake? then 1 else 0
  {
  }

  lemma ShakenStep(p: Mesh, pc: Pc)
    requires Valid(p) && pc.k < |p.chunks| && PcOk(p, pc)
    ensures Shaken(p, Advance(p, pc)) == Shaken(p, pc) + if pc.st.AwaitShake? then 1 else 0
  {
  }

  lemma {:induction false} ShakesMono(p: Mesh, k: nat, j: nat)
    requires 2 <= p.n && k <= j <= |p.chunks|
    ensures Shakes(p, k) <= Shakes(p, j)
    decreases j
  {
    if k < j { ShakesMono(p, k, j - 1); }
  }

  // ---- preservation -----------------------------------------------------------------------

  lemma ShakeStep(p: Mesh, s: State, c: nat, d: nat)
    requires Control(p, s) && At(p, s, c) && Enabled(p, s, c) && d < p.n && PcsOk(p, Apply(p, s, c))
    ensures ShakeOk(p, Apply(p, s, c), d)
  {
    assert ShakeOk(p, s, d);
    ShakesStep(p, s.pc[c]);
    ShakesMono(p, 0, s.pc[c].k);
  }

  lemma FlagStep(p: Mesh, s: State, c: nat, d: nat, e: nat)
    requires Control(p, s) && At(p, s, c) && Enabled(p, s, c) && d < p.n && e < p.n && PcsOk(p, Apply(p, s, c))
    ensures FlagOk(p, Apply(p, s, c), d, e)
  {
    assert FlagOk(p, s, d, e);
    if d != e && e == c {
      WrittenStep(p, s.pc[c], c, d);
      PeerPlace(p.n, c, d);
    }
  }

  /** A counter that has reached a value was written for it. */
  lemma FlagMeans(p: Mesh, s: State, c: nat, d: nat, k: nat)
    requires Control(p, s) && c < p.n && d < p.n && c != d && k < |p.chunks|
    ensures s.flag[c][d] >= FlagValue(p, k, 1) <==> Sent1(p, s.pc[d], d, c, k)
    ensures s.flag[c][d] >= FlagValue(p, k, 2) <==> Sent2(p, s.pc[d], d, c, k)
  {
    assert FlagOk(p, s, c, d);
  }

  lemma WaitStep(p: Mesh, s: State, c: nat, d: nat, e: nat, k: nat)
    requires Control(p, s) && At(p, s, c) && Enabled(p, s, c) && d < p.n && e < p.n && PcsOk(p, Apply(p, s, c))
    ensures WaitOk(p, Apply(p, s, c), d, e, k)
  {
    assert WaitOk(p, s, d, e, k);
    if k < |p.chunks| && d != e {
      PeerPlace(p.n, d, e);
      FlagMeans(p, s, d, e, k);
      PastStep(p, s.pc[c], k, Await1(Place(p.n, d, e)));
      PastStep(p, s.pc[c], k, Await2(Place(p.n, d, e)));
      PastStep(p, s.pc[c], k, Flag1(Place(p.n, e, d)));
      PastStep(p, s.pc[c], k, Flag2(Place(p.n, e, d)));
    }
  }

  lemma ControlStep(p: Mesh, s: State, c: nat)
    requires Control(p, s) && At(p, s, c) && Enabled(p, s, c)
    ensures Control(p, Apply(p, s, c))
  {
    var s' := Apply(p, s, c);
    StepPcs(p, s, c);
    forall d | 0 <= d < p.n ensures ShakeOk(p, s', d) { ShakeStep(p, s, c, d); }
    forall d: nat, e: nat, k: nat | d < p.n && e < p.n ensures WaitOk(p, s', d, e, k) { WaitStep(p, s, c, d, e, k); }
    forall d: nat, e: nat | d < p.n && e < p.n ensures FlagOk(p, s', d, e) { FlagStep(p, s, c, d, e); }
  }

  // ---- how far cards can be apart ------------------------------------------------------------

  function Forward(n: nat, c: nat, j: nat): (d: nat)
    requires c < n && j <= n
    ensures d < n
  {
    if c + j < n then c + j else c + j - n
  }

  /** The handshakes travel round the ring: j cards on, at most j fewer have been sent. */
  lemma {:induction false} ShakeChain(p: Mesh, s: State, c: nat, j: nat)
    requires Control(p, s) && c < p.n && 1 <= j < p.n
    ensures Shaken(p, s.pc[c]) <= Shook(p, s.pc[Forward(p.n, c, j)]) + j - 1
    decreases j
  {
    assert ShakeOk(p, s, c);
    if j > 1 {
      ShakeChain(p, s, c, j - 1);
      var d := Forward(p.n, c, j - 1);
      assert ShakeOk(p, s, d) && Next(p.n, d) == Forward(p.n, c, j);
      assert Shook(p, s.pc[d]) <= Shaken(p, s.pc[d]) + 1;
    }
  }

  /** The card has been in the loop of chunk k. */
  predicate Entered(p: Mesh, pc: Pc, k: nat) {
    pc.k > k || (pc.k == k && Rank(p.n, pc.st) >= 2 * p.n)
  }

  /** When a card has been in the loop of a call, every card has entered the call. */
  lemma AllEntered(p: Mesh, s: State, c: nat, d: nat, k: nat)
    requires Control(p, s) && c < p.n && d < p.n && k < |p.chunks| && Entered(p, s.pc[c], k) && p.chunks[k].opens
    ensures s.pc[d].k >= k
  {
    if c != d && s.pc[d].k < k {
      var j := Place(p.n, c, d);
      ShakeChain(p, s, c, j);
      ShakesMono(p, s.pc[d].k + 1, k);
      ShakesMono(p, if s.pc[c].k > k then k + 1 else k, s.pc[c].k);
      assert false;
    }
  }

  /** When a card has been in the loop of a chunk, every card has reduced its slice of the
      chunk before. */
  lemma OneBehind(p: Mesh, s: State, c: nat, d: nat, k: nat)
    requires Control(p, s) && c < p.n && d < p.n && 0 < k < |p.chunks| && Entered(p, s.pc[c], k)
    ensures Past(p, s.pc[d], k - 1, Fold)
  {
    if p.chunks[k].opens {
      AllEntered(p, s, c, d, k);
    } else if c != d {
      assert Follows(p, k);
      assert WaitOk(p, s, c, d, k - 1);
      assert p.chunks[k - 1].counts[d] > 0;
    }
  }
}
