/** Reduce is correct in every run: the coarse credits keep every slot until it has been
    used, the root gets the fold over all cards, and no run deadlocks. */
module ReduceTheorems {
  import opened Arith
  import opened Cycle
  import opened Memory
  import opened Terms
  import opened ReduceChain
  import opened ReduceMachine

  /** Cards between the first card of a call and card c. */
  function Place(p: Chain, h: nat, c: nat): (k: nat)
    requires Valid(p) && h < |p.calls| && c < p.n
    ensures k < p.n
  {
    var first := Next(p.n, p.calls[h].root);
    if first <= c then c - first else c + p.n - first
  }

  /** What card c passes on: its own slice reduced onto what the cards before it made. */
  function Partial(p: Chain, h: nat, j: nat, c: nat): Term
    requires Valid(p) && h < |p.calls| && c < p.n
    decreases Place(p, h, c)
  {
    if Prev(p.n, c) == p.calls[h].root then Leaf(c, h, j)
    else Node(Leaf(c, h, j), Partial(p, h, j, Prev(p.n, c)))
  }

  function RangeOf(p: Chain, h: nat, j: nat): Region
    requires h < |p.calls|
  {
    Range(p.calls[h], j)
  }

  /** What was pushed to the card after c and not reduced yet is intact. */
  ghost predicate Arrived(p: Chain, s: State, c: nat, h: nat, j: nat)
    requires Valid(p) && PcsOk(p, s) && c < p.n
  {
    var d := Next(p.n, c);
    h < |p.calls| && Active(p, c, h) && Past(p, s.pc[d], h, Fold) <= j < Past(p, s.pc[c], h, Push) ==>
      Get(s.out[d], RangeOf(p, h, j)) == Partial(p, h, j, c)
  }

  /** What card c has reduced and not pushed yet is intact. */
  ghost predicate Folded(p: Chain, s: State, c: nat)
    requires Valid(p) && PcsOk(p, s) && c < p.n
  {
    var Pc(g, m, st) := s.pc[c];
    g < |p.calls| && Active(p, c, g) && Active(p, Prev(p.n, c), g) && Rank(st) > Rank(Fold) ==>
      Get(s.out[c], RangeOf(p, g, m)) == Partial(p, g, m, c)
  }

  ghost predicate Own(p: Chain, s: State, c: nat)
    requires Valid(p) && PcsOk(p, s) && c < p.n
  {
    var Pc(g, m, st) := s.pc[c];
    g < |p.calls| && Rank(st) > Rank(Local) ==> Get(s.inb[c], RangeOf(p, g, m)) == Leaf(c, g, m)
  }

  ghost predicate Received(p: Chain, s: State, h: nat, j: nat)
    requires Valid(p) && PcsOk(p, s)
  {
    h < |p.calls| ==>
      var root := p.calls[h].root;
      j < Past(p, s.pc[root], h, Fold) ==>
        (h, j) in s.user[root] && s.user[root][(h, j)] == Partial(p, h, j, root)
  }

  ghost predicate Inv(p: Chain, s: State)
    requires Valid(p)
  {
    && Control(p, s)
    && (forall c: nat, h: nat, j: nat :: c < p.n ==> Arrived(p, s, c, h, j))
    && (forall c :: 0 <= c < p.n ==> Folded(p, s, c) && Own(p, s, c))
    && (forall h: nat, j: nat :: Received(p, s, h, j))
  }

  // ---- preservation ------------------------------------------------------------------------

  function Reduced(p: Chain, s: State, c: nat): Term
    requires Valid(p) && At(p, s, c)
  {
    var at := RangeOf(p, s.pc[c].g, s.pc[c].m);
    Node(Get(s.inb[c], at), Get(s.out[c], at))
  }

  function Pushed(p: Chain, s: State, c: nat): Term
    requires Valid(p) && At(p, s, c)
  {
    var Pc(g, m, st) := s.pc[c];
    Get(if Prev(p.n, c) == p.calls[g].root then s.inb[c] else s.out[c], RangeOf(p, g, m))
  }

  lemma BufferEffects(p: Chain, s: State, c: nat)
    requires Valid(p) && At(p, s, c)
    ensures
      var (s', Pc(g, m, st)) := (Apply(p, s, c), s.pc[c]);
      var (at, d) := (RangeOf(p, g, m), Next(p.n, c));
      && s'.inb == (if st == Local then s.inb[c := Put(s.inb[c], at, Leaf(c, g, m))] else s.inb)
      && s'.out == (if st == Fold && Active(p, Prev(p.n, c), g) && Active(p, c, g)
        then s.out[c := Put(s.out[c], at, Reduced(p, s, c))]
                    else if st == Push && Active(p, c, g) then s.out[d := Put(s.out[d], at, Pushed(p, s, c))]
                    else s.out)
  {
  }

  lemma UserEffects(p: Chain, s: State, c: nat)
    requires Valid(p) && At(p, s, c)
    ensures
      var (s', Pc(g, m, st)) := (Apply(p, s, c), s.pc[c]);
      s'.user == if st == Fold && c == p.calls[g].root then s.user[c := s.user[c][(g, m) := Reduced(p, s, c)]]
        else s.user
  {
  }

  /** What a card reduces is its own slice and the partial fold of the cards before it. */
  lemma ReducedIs(p: Chain, s: State, c: nat)
    requires Valid(p) && Inv(p, s) && At(p, s, c) && s.pc[c].st == Fold && Active(p, Prev(p.n, c), s.pc[c].g)
    ensures Reduced(p, s, c) == Partial(p, s.pc[c].g, s.pc[c].m, c)
  {
    var (b, Pc(g, m, _)) := (Prev(p.n, c), s.pc[c]);
    assert Next(p.n, b) == c && LinkOk(p, s, b, g) && Arrived(p, s, b, g, m) && Own(p, s, c);
  }

  lemma PushedIs(p: Chain, s: State, c: nat)
    requires Valid(p) && Inv(p, s) && At(p, s, c) && s.pc[c].st == Push && Active(p, c, s.pc[c].g)
    ensures Pushed(p, s, c) == Partial(p, s.pc[c].g, s.pc[c].m, c)
  {
    assert Own(p, s, c) && Folded(p, s, c);
  }

  /** A slot that is pushed into again was used up by the receiver before. */
  lemma CreditProtects(p: Chain, s: State, c: nat, j: nat)
    requires Valid(p) && Control(p, s) && At(p, s, c) && s.pc[c].st == Push && Active(p, c, s.pc[c].g)
    requires Past(p, s.pc[Next(p.n, c)], s.pc[c].g, Flag) <= j < s.pc[c].m
    ensures s.pc[c].m < j + BUFFERS
  {
    var (Pc(g, m, _), d) := (s.pc[c], Next(p.n, c));
    assert LinkOk(p, s, c, g);
    assert Past(p, s.pc[c], g, AwaitCredit) == m + 1;
    if j + BUFFERS <= m { assert false; }
  }

  /** Of call h, card c still needs slot j: it has not pushed on what it holds there. */
  lemma PushKeeps(p: Chain, s: State, c: nat, h: nat, j: nat)
    requires Valid(p) && Control(p, s) && At(p, s, c) && s.pc[c].st == Push && Active(p, c, s.pc[c].g)
    requires h < |p.calls| && Past(p, s.pc[Next(p.n, c)], h, Flag) <= j < StepsOf(p, h)
    requires h == s.pc[c].g ==> j < s.pc[c].m
    requires h <= s.pc[c].g
    ensures
      var (at, v) := (RangeOf(p, s.pc[c].g, s.pc[c].m), Pushed(p, s, c));
      Get(Put(s.out[Next(p.n, c)], at, v), RangeOf(p, h, j)) == Get(s.out[Next(p.n, c)], RangeOf(p, h, j))
  {
    var (Pc(g, m, _), d) := (s.pc[c], Next(p.n, c));
    assert CardOk(p, s, c);
    CreditProtects(p, s, c, j);
    RangesApart(p.n, p.calls[g], j, m);
    PutKeeps(s.out[d], RangeOf(p, g, m), Pushed(p, s, c), RangeOf(p, h, j));
  }

  lemma ArrivedStep(p: Chain, s: State, c: nat, b: nat, h: nat, j: nat)
    requires Valid(p) && Inv(p, s) && At(p, s, c) && Enabled(p, s, c) && b < p.n && PcsOk(p, Apply(p, s, c))
    ensures Arrived(p, Apply(p, s, c), b, h, j)
  {
    if h < |p.calls| && Active(p, b, h) {
      assert Arrived(p, s, b, h, j) && PcOk(p, s.pc[b]);
      FlagEffects(p, s, c);
      BufferEffects(p, s, c);
      PastStep(p, s.pc[c], h, Fold);
      PastStep(p, s.pc[c], h, Push);
      var d := Next(p.n, b);
      if c == b && s.pc[c].st == Push && Active(p, c, s.pc[c].g) {
        PushArrives(p, s, c, h, j);
      } else if c == d && s.pc[d].st == Fold {
        FoldKeeps(p, s, b, h, j);
      }
    }
  }

  lemma PushArrives(p: Chain, s: State, c: nat, h: nat, j: nat)
    requires Valid(p) && Inv(p, s) && At(p, s, c) && Enabled(p, s, c) && PcsOk(p, Apply(p, s, c))
    requires s.pc[c].st == Push && Active(p, c, s.pc[c].g) && h < |p.calls| && Active(p, c, h)
    ensures Arrived(p, Apply(p, s, c), c, h, j)
  {
    var (Pc(g, m, _), d) := (s.pc[c], Next(p.n, c));
    assert Arrived(p, s, c, h, j);
    FlagEffects(p, s, c);
    BufferEffects(p, s, c);
    PastStep(p, s.pc[c], h, Push);
    PushedIs(p, s, c);
    if Past(p, s.pc[d], h, Fold) <= j < Past(p, s.pc[c], h, Push) {
      assert Past(p, s.pc[d], h, Flag) <= Past(p, s.pc[d], h, Fold);
      PushKeeps(p, s, c, h, j);
    }
  }

  /** Reducing one slot leaves the slots that were pushed after it alone. */
  lemma FoldKeeps(p: Chain, s: State, b: nat, h: nat, j: nat)
    requires Valid(p) && Inv(p, s) && b < p.n && At(p, s, Next(p.n, b)) && Enabled(p, s, Next(p.n, b))
    requires PcsOk(p, Apply(p, s, Next(p.n, b)))
    requires s.pc[Next(p.n, b)].st == Fold && h < |p.calls| && Active(p, b, h)
    ensures Arrived(p, Apply(p, s, Next(p.n, b)), b, h, j)
  {
    if h == s.pc[Next(p.n, b)].g {
      FoldKeepsCall(p, s, b, j);
    } else {
      FoldKeepsOthers(p, s, b, h, j);
    }
  }

  lemma FoldKeepsCall(p: Chain, s: State, b: nat, j: nat)
    requires Valid(p) && Inv(p, s) && b < p.n && At(p, s, Next(p.n, b)) && Enabled(p, s, Next(p.n, b))
    requires PcsOk(p, Apply(p, s, Next(p.n, b)))
    requires s.pc[Next(p.n, b)].st == Fold && Active(p, b, s.pc[Next(p.n, b)].g)
    ensures Arrived(p, Apply(p, s, Next(p.n, b)), b, s.pc[Next(p.n, b)].g, j)
  {
    var d := Next(p.n, b);
    var Pc(g, m, _) := s.pc[d];
    assert Arrived(p, s, b, g, j) && LinkOk(p, s, b, g);
    FlagEffects(p, s, d);
    BufferEffects(p, s, d);
    PastStep(p, s.pc[d], g, Fold);
    if Active(p, d, g) && m < j < Past(p, s.pc[b], g, Push) { FoldMisses(p, s, b, j); }
  }

  /** In a later call the sender has not pushed yet, in an earlier one all is reduced. */
  lemma FoldKeepsOthers(p: Chain, s: State, b: nat, h: nat, j: nat)
    requires Valid(p) && Inv(p, s) && b < p.n && At(p, s, Next(p.n, b)) && Enabled(p, s, Next(p.n, b))
    requires PcsOk(p, Apply(p, s, Next(p.n, b)))
    requires s.pc[Next(p.n, b)].st == Fold && h < |p.calls| && Active(p, b, h) && h != s.pc[Next(p.n, b)].g
    ensures Arrived(p, Apply(p, s, Next(p.n, b)), b, h, j)
  {
    var d := Next(p.n, b);
    assert LinkOk(p, s, b, h) && CardOk(p, s, b);
    FlagEffects(p, s, d);
    PastStep(p, s.pc[d], h, Fold);
    if h > s.pc[d].g { assert Entered(s.pc[b]) <= Shook(s.pc[d]); }
  }

  lemma FoldMisses(p: Chain, s: State, b: nat, j: nat)
    requires Valid(p) && Inv(p, s) && b < p.n && At(p, s, Next(p.n, b)) && s.pc[Next(p.n, b)].st == Fold
    requires
      var Pc(g, m, _) := s.pc[Next(p.n, b)];
      Active(p, Next(p.n, b), g) && Active(p, b, g) && m < j < Past(p, s.pc[b], g, Push)
    ensures
      var (d, Pc(g, m, _)) := (Next(p.n, b), s.pc[Next(p.n, b)]);
      Get(Put(s.out[d], RangeOf(p, g, m), Reduced(p, s, d)), RangeOf(p, g, j)) == Get(s.out[d], RangeOf(p, g, j))
  {
    var d := Next(p.n, b);
    var Pc(g, m, _) := s.pc[d];
    WithinCredit(p, s, b, g, j);
    RangesApart(p.n, p.calls[g], m, j);
    PutKeeps(s.out[d], RangeOf(p, g, m), Reduced(p, s, d), RangeOf(p, g, j));
  }

  /** A sender is less than a round of slots ahead of the step its receiver is at. */
  lemma WithinCredit(p: Chain, s: State, b: nat, g: nat, j: nat)
    requires Valid(p) && Control(p, s) && b < p.n && At(p, s, Next(p.n, b)) && s.pc[Next(p.n, b)].g == g
    requires Active(p, b, g) && s.pc[Next(p.n, b)].st == Fold && j < Past(p, s.pc[b], g, Push)
    ensures j < s.pc[Next(p.n, b)].m + BUFFERS
  {
    var m := s.pc[Next(p.n, b)].m;
    assert LinkOk(p, s, b, g);
    var pushed := Past(p, s.pc[b], g, AwaitCredit);
    if m + BUFFERS <= j { assert false; }
  }

  lemma FoldedStep(p: Chain, s: State, c: nat, b: nat)
    requires Valid(p) && Inv(p, s) && At(p, s, c) && Enabled(p, s, c) && b < p.n && PcsOk(p, Apply(p, s, c))
    ensures Folded(p, Apply(p, s, c), b)
  {
    assert Folded(p, s, b) && PcOk(p, s.pc[b]);
    FlagEffects(p, s, c);
    if b == c {
      FoldMakes(p, s, c);
    } else if b == Next(p.n, c) && s.pc[c].st == Push && Active(p, c, s.pc[c].g) {
      PushSpares(p, s, c);
    } else {
      BufferEffects(p, s, c);
    }
  }

  lemma FoldMakes(p: Chain, s: State, c: nat)
    requires Valid(p) && Inv(p, s) && At(p, s, c) && Enabled(p, s, c) && PcsOk(p, Apply(p, s, c))
    ensures Folded(p, Apply(p, s, c), c)
  {
    assert Folded(p, s, c);
    FlagEffects(p, s, c);
    BufferEffects(p, s, c);
    if s.pc[c].st == Fold && Active(p, Prev(p.n, c), s.pc[c].g) { ReducedIs(p, s, c); }
  }

  /** A push spares what the receiver has reduced and is about to pass on. */
  lemma PushSpares(p: Chain, s: State, c: nat)
    requires Valid(p) && Inv(p, s) && At(p, s, c) && Enabled(p, s, c) && PcsOk(p, Apply(p, s, c))
    requires s.pc[c].st == Push && Active(p, c, s.pc[c].g)
    ensures Folded(p, Apply(p, s, c), Next(p.n, c))
  {
    var b := Next(p.n, c);
    var Pc(g, m, st) := s.pc[b];
    assert Folded(p, s, b) && PcOk(p, s.pc[b]);
    FlagEffects(p, s, c);
    BufferEffects(p, s, c);
    if g < |p.calls| && Active(p, b, g) && Active(p, c, g) && Rank(st) > Rank(Fold) {
      assert LinkOk(p, s, c, g) && CardOk(p, s, c);
      assert Past(p, s.pc[b], g, Await) == m + 1;
      PushKeeps(p, s, c, g, m);
    }
  }

  lemma OwnStep(p: Chain, s: State, c: nat, b: nat)
    requires Valid(p) && Inv(p, s) && At(p, s, c) && Enabled(p, s, c) && b < p.n && PcsOk(p, Apply(p, s, c))
    ensures Own(p, Apply(p, s, c), b)
  {
    assert Own(p, s, b);
    FlagEffects(p, s, c);
    BufferEffects(p, s, c);
  }

  lemma ReceivedStep(p: Chain, s: State, c: nat, h: nat, j: nat)
    requires Valid(p) && Inv(p, s) && At(p, s, c) && Enabled(p, s, c) && PcsOk(p, Apply(p, s, c))
    ensures Received(p, Apply(p, s, c), h, j)
  {
    if h < |p.calls| {
      assert Received(p, s, h, j);
      FlagEffects(p, s, c);
      UserEffects(p, s, c);
      PastStep(p, s.pc[c], h, Fold);
      if s.pc[c].st == Fold && c == p.calls[s.pc[c].g].root { ReducedIs(p, s, c); }
    }
  }

  lemma StepInv(p: Chain, s: State, c: nat)
    requires Valid(p) && Inv(p, s) && At(p, s, c) && Enabled(p, s, c)
    ensures Inv(p, Apply(p, s, c))
  {
    var s' := Apply(p, s, c);
    ControlStep(p, s, c);
    forall b: nat, h: nat, j: nat | b < p.n ensures Arrived(p, s', b, h, j) { ArrivedStep(p, s, c, b, h, j); }
    forall b | 0 <= b < p.n ensures Folded(p, s', b) && Own(p, s', b) { FoldedStep(p, s, c, b); OwnStep(p, s, c, b); }
    forall h: nat, j: nat ensures Received(p, s', h, j) { ReceivedStep(p, s, c, h, j); }
  }

  // ---- whole runs ----------------------------------------------------------------------------

  ghost predicate Step(p: Chain, s: State, s': State) {
    exists c: nat :: At(p, s, c) && Enabled(p, s, c) && s' == Apply(p, s, c)
  }

  ghost predicate Run(p: Chain, tr: seq<State>) {
    && tr != [] && Init(p, tr[0])
    && (forall i :: 0 <= i < |tr| ==> Shape(p, tr[i]))
    && forall i :: 0 < i < |tr| ==> Step(p, tr[i - 1], tr[i])
  }

  lemma InitInv(p: Chain, s: State)
    requires Valid(p) && Init(p, s)
    ensures Inv(p, s)
  {
    InitControl(p, s);
    assert forall c :: 0 <= c < p.n ==> s.pc[c] == Pc(0, 0, SetReady);
  }

  lemma {:induction false} RunInv(p: Chain, tr: seq<State>)
    requires Valid(p) && Run(p, tr)
    ensures Inv(p, tr[|tr| - 1])
    decreases |tr|
  {
    if |tr| == 1 {
      InitInv(p, tr[0]);
    } else {
      var s := tr[|tr| - 2];
      assert tr[..|tr| - 1][|tr| - 2] == s;
      RunInv(p, tr[..|tr| - 1]);
      assert Step(p, s, tr[|tr| - 1]);
      var c: nat :| At(p, s, c) && Enabled(p, s, c) && tr[|tr| - 1] == Apply(p, s, c);
      StepInv(p, s, c);
    }
  }

  /** The root has, of every slice it has finished, the fold over all cards. */
  lemma ReduceDelivers(p: Chain, tr: seq<State>, h: nat, j: nat)
    requires Valid(p) && Run(p, tr) && h < |p.calls| && j < Steps(p.calls[h])
    requires
      var pc := tr[|tr| - 1].pc[p.calls[h].root];
      h < pc.g || (h == pc.g && j < pc.m)
    ensures
      var root := p.calls[h].root;
      var user := tr[|tr| - 1].user[root];
      (h, j) in user && user[(h, j)] == Partial(p, h, j, root)
  {
    var s := tr[|tr| - 1];
    RunInv(p, tr);
    assert PcOk(p, s.pc[p.calls[h].root]) && Received(p, s, h, j);
  }

  /** While a push is in flight, its receiver reduces and forwards other bytes. */
  lemma RaceFree(p: Chain, tr: seq<State>, c: nat)
    requires Valid(p) && Run(p, tr) && At(p, tr[|tr| - 1], c)
    requires tr[|tr| - 1].pc[c].st == Push && Active(p, c, tr[|tr| - 1].pc[c].g)
    requires
      var s := tr[|tr| - 1];
      var d := Next(p.n, c);
      && At(p, s, d) && (s.pc[d].st == Fold || s.pc[d].st == Push)
      && Active(p, c, s.pc[d].g)
    ensures
      var s := tr[|tr| - 1];
      var (pc, pd) := (s.pc[c], s.pc[Next(p.n, c)]);
      !Overlap(RangeOf(p, pc.g, pc.m), RangeOf(p, pd.g, pd.m))
  {
    RunInv(p, tr);
    InFlightApart(p, tr[|tr| - 1], c);
  }

  lemma InFlightApart(p: Chain, s: State, c: nat)
    requires Valid(p) && Inv(p, s) && At(p, s, c) && s.pc[c].st == Push && Active(p, c, s.pc[c].g)
    requires
      var d := Next(p.n, c);
      && At(p, s, d) && (s.pc[d].st == Fold || s.pc[d].st == Push)
      && Active(p, c, s.pc[d].g)
    ensures
      var (pc, pd) := (s.pc[c], s.pc[Next(p.n, c)]);
      !Overlap(RangeOf(p, pc.g, pc.m), RangeOf(p, pd.g, pd.m))
  {
    var (Pc(g, m, _), Pc(_, j, _)) := (s.pc[c], s.pc[Next(p.n, c)]);
    ReceiverBehind(p, s, c);
    CreditProtects(p, s, c, j);
    RangesApart(p.n, p.calls[g], j, m);
  }

  /** A receiver at work is in an earlier step of the same call. */
  lemma ReceiverBehind(p: Chain, s: State, c: nat)
    requires Valid(p) && Control(p, s) && At(p, s, c) && s.pc[c].st == Push && Active(p, c, s.pc[c].g)
    requires
      var d := Next(p.n, c);
      && At(p, s, d) && (s.pc[d].st == Fold || s.pc[d].st == Push)
      && Active(p, c, s.pc[d].g)
    ensures
      var (pc, pd) := (s.pc[c], s.pc[Next(p.n, c)]);
      pd.g == pc.g && Past(p, pd, pc.g, Flag) <= pd.m < pc.m
  {
    var (g, h) := (s.pc[c].g, s.pc[Next(p.n, c)].g);
    assert CardOk(p, s, c) && LinkOk(p, s, c, g) && LinkOk(p, s, c, h);
  }

  // ---- the fold over all cards -----------------------------------------------------------------

  lemma RotatedAt<T>(xs: seq<T>, first: nat, c: nat)
    requires first < |xs| && c < |xs|
    ensures (xs[first..] + xs[..first])[if first <= c then c - first else c + |xs| - first] == xs[c]
  {
  }

  lemma OneMore<T(!new)>(op: (T, T) -> T, ys: seq<T>, k: nat)
    requires Commutative(op) && 0 < k < |ys|
    ensures op(ys[k], Reduce(op, ys[..k])) == Reduce(op, ys[..k + 1])
  {
    assert ys[..k + 1][..k] == ys[..k];
    assert Swaps(op, ys[k], Reduce(op, ys[..k]));
  }

  lemma {:induction false} PartialIsReduction<T(!new)>(p: Chain, h: nat, j: nat, c: nat,
                                                       op: (T, T) -> T, input: (nat, nat, nat) -> T, junk: T)
    requires Valid(p) && h < |p.calls| && c < p.n && Associative(op) && Commutative(op)
    ensures
      var (xs, first) := (Inputs(input, p.n, h, j), Next(p.n, p.calls[h].root));
      Eval(Partial(p, h, j, c), op, input, junk) == Reduce(op, (xs[first..] + xs[..first])[..Place(p, h, c) + 1])
    decreases Place(p, h, c)
  {
    var (xs, first) := (Inputs(input, p.n, h, j), Next(p.n, p.calls[h].root));
    var ys := xs[first..] + xs[..first];
    var k := Place(p, h, c);
    RotatedAt(xs, first, c);
    if Prev(p.n, c) != p.calls[h].root {
      PartialIsReduction(p, h, j, Prev(p.n, c), op, input, junk);
      assert Place(p, h, Prev(p.n, c)) == k - 1;
      OneMore(op, ys, k);
    } else {
      assert k == 0;
    }
  }

  /** For an associative and commutative operation the root gets the plain reduction of all
      cards' slices in card order, wherever the chain began. */
  lemma RootGetsReduction<T(!new)>(p: Chain, h: nat, j: nat, op: (T, T) -> T, input: (nat, nat, nat) -> T, junk: T)
    requires Valid(p) && h < |p.calls| && Associative(op) && Commutative(op)
    ensures Eval(Partial(p, h, j, p.calls[h].root), op, input, junk) == Reduce(op, Inputs(input, p.n, h, j))
  {
    var (xs, root) := (Inputs(input, p.n, h, j), p.calls[h].root);
    var first := Next(p.n, root);
    PartialIsReduction(p, h, j, root, op, input, junk);
    assert (xs[first..] + xs[..first])[..p.n] == xs[first..] + xs[..first];
    ReduceRotate(op, xs, first);
  }

  // ---- progress ------------------------------------------------------------------------------

  function Start(p: Chain, g: nat): nat
    requires g <= |p.calls|
  {
    if g == 0 then 0 else Start(p, g - 1) + 7 * StepsOf(p, g - 1) + 2
  }

  /** How far a card is in its whole program. */
  function Position(p: Chain, pc: Pc): nat
    requires pc.g <= |p.calls|
  {
    Start(p, pc.g) + if pc.g == |p.calls| || pc.st == SetReady then 0 else if pc.st == AwaitReady then 1
      else 2 + 7 * pc.m + Rank(pc.st)
  }

  lemma {:induction false} StartMono(p: Chain, g: nat, h: nat)
    requires g <= h <= |p.calls|
    ensures Start(p, g) <= Start(p, h)
    decreases h
  {
    if g < h { StartMono(p, g, h - 1); }
  }

  lemma PositionGrows(p: Chain, pc: Pc)
    requires pc.g < |p.calls| && PcOk(p, pc)
    ensures Position(p, Advance(p, pc)) == Position(p, pc) + 1
  {
  }

  lemma PositionBound(p: Chain, pc: Pc)
    requires pc.g <= |p.calls| && PcOk(p, pc)
    ensures Position(p, pc) <= Start(p, |p.calls|)
    ensures pc.g < |p.calls| ==> Position(p, pc) < Start(p, pc.g + 1) <= Start(p, |p.calls|)
  {
    StartMono(p, if pc.g < |p.calls| then pc.g + 1 else pc.g, |p.calls|);
  }

  /** Being no further means having executed no stage more often. */
  lemma BehindMeans(p: Chain, pc: Pc, other: Pc)
    requires pc.g < |p.calls| && PcOk(p, pc) && other.g <= |p.calls| && PcOk(p, other)
    requires Position(p, pc) <= Position(p, other)
    ensures pc.g <= other.g
    ensures pc.g == other.g && !Opening(pc.st)
      ==> !Opening(other.st) && (pc.m < other.m || (pc.m == other.m && Rank(pc.st) <= Rank(other.st)))
    ensures pc.g == other.g && pc.st == AwaitReady ==> other.st != SetReady
  {
    PositionBound(p, other);
    if other.g < pc.g { StartMono(p, other.g + 1, pc.g); }
  }

  ghost predicate CanStep(p: Chain, s: State, c: nat) {
    At(p, s, c) && Enabled(p, s, c)
  }

  ghost predicate SomeoneCanStep(p: Chain, s: State) {
    exists c: nat :: CanStep(p, s, c)
  }

  ghost predicate Least(p: Chain, s: State, c: nat)
    requires PcsOk(p, s) && c < p.n
  {
    forall d :: 0 <= d < p.n ==> Position(p, s.pc[c]) <= Position(p, s.pc[d])
  }

  lemma {:induction false} Last(p: Chain, s: State, k: nat) returns (c: nat)
    requires PcsOk(p, s) && 0 < k <= p.n
    ensures c < k && forall d :: 0 <= d < k ==> Position(p, s.pc[c]) <= Position(p, s.pc[d])
    decreases k
  {
    if k == 1 {
      c := 0;
    } else {
      c := Last(p, s, k - 1);
      if Position(p, s.pc[k - 1]) < Position(p, s.pc[c]) { c := k - 1; }
    }
  }

  /** A least advanced card can go on, or else one nearer to the start of the chain can. */
  lemma {:induction false} LeastGoesOn(p: Chain, s: State, c: nat)
    requires Valid(p) && Control(p, s) && At(p, s, c) && Least(p, s, c)
    ensures SomeoneCanStep(p, s)
    decreases Place(p, s.pc[c].g, c)
  {
    var Pc(g, m, st) := s.pc[c];
    var b := Prev(p.n, c);
    if st == Await && b != p.calls[g].root {
      BehindMeans(p, s.pc[c], s.pc[b]);
      DataWaitExact(p, s, c);
      if Past(p, s.pc[b], g, Flag) > m {
        assert CanStep(p, s, c);
      } else if s.pc[b].st == Await {
        LeastGoesOn(p, s, b);
      } else {
        UpstreamGoesOn(p, s, b);
      }
    } else {
      NotAwaitGoesOn(p, s, c);
    }
  }

  /** Card b is on its way to the push for which a least advanced card waits. */
  lemma UpstreamGoesOn(p: Chain, s: State, b: nat)
    requires Valid(p) && Control(p, s) && At(p, s, b) && Active(p, b, s.pc[b].g)
    requires s.pc[Next(p.n, b)] == Pc(s.pc[b].g, s.pc[b].m, Await) && Rank(s.pc[b].st) > 2
    ensures SomeoneCanStep(p, s)
  {
    if s.pc[b].st == AwaitCredit && NeedsCredit(s.pc[b].m) { CreditWaitExact(p, s, b); }
    assert CanStep(p, s, b);
  }

  lemma NotAwaitGoesOn(p: Chain, s: State, c: nat)
    requires Valid(p) && Control(p, s) && At(p, s, c) && Least(p, s, c)
    requires s.pc[c].st != Await || Prev(p.n, c) == p.calls[s.pc[c].g].root
    ensures SomeoneCanStep(p, s)
  {
    var (Pc(g, m, st), d) := (s.pc[c], Next(p.n, c));
    BehindMeans(p, s.pc[c], s.pc[d]);
    assert CardOk(p, s, c) && ReadyShown(p, s, c, g);
    if st == AwaitCredit && Active(p, c, g) && NeedsCredit(m) { CreditWaitExact(p, s, c); }
    assert CanStep(p, s, c);
  }

  /** As long as some card is not finished, some card can take a step. */
  lemma ReduceNeverDeadlocks(p: Chain, tr: seq<State>, d: nat)
    requires Valid(p) && Run(p, tr) && d < p.n && tr[|tr| - 1].pc[d].g < |p.calls|
    ensures SomeoneCanStep(p, tr[|tr| - 1])
  {
    var s := tr[|tr| - 1];
    RunInv(p, tr);
    var c := Last(p, s, p.n);
    assert Least(p, s, c);
    PositionBound(p, s.pc[d]);
    LeastGoesOn(p, s, c);
  }

  function Total(p: Chain, s: State, k: nat): nat
    requires PcsOk(p, s) && k <= p.n
  {
    if k == 0 then 0 else Total(p, s, k - 1) + Position(p, s.pc[k - 1])
  }

  lemma {:induction false} TotalGrows(p: Chain, s: State, s': State, c: nat, k: nat)
    requires PcsOk(p, s) && PcsOk(p, s') && At(p, s, c) && k <= p.n
    requires s'.pc == s.pc[c := Advance(p, s.pc[c])]
    ensures Total(p, s', k) == Total(p, s, k) + if c < k then 1 else 0
    decreases k
  {
    PositionGrows(p, s.pc[c]);
    if k > 0 { TotalGrows(p, s, s', c, k - 1); }
  }

  lemma {:induction false} TotalBound(p: Chain, s: State, k: nat)
    requires PcsOk(p, s) && k <= p.n
    ensures Total(p, s, k) <= Times(k, Start(p, |p.calls|))
    decreases k
  {
    if k > 0 {
      TotalBound(p, s, k - 1);
      PositionBound(p, s.pc[k - 1]);
    }
  }

  lemma {:induction false} RunTotal(p: Chain, tr: seq<State>)
    requires Valid(p) && Run(p, tr)
    ensures Inv(p, tr[|tr| - 1]) && |tr| <= 1 + Total(p, tr[|tr| - 1], p.n)
    decreases |tr|
  {
    RunInv(p, tr);
    if |tr| > 1 {
      var before := tr[..|tr| - 1];
      RunTotal(p, before);
      var (s, s') := (before[|tr| - 2], tr[|tr| - 1]);
      assert Step(p, tr[|tr| - 2], tr[|tr| - 1]);
      var c: nat :| At(p, s, c) && Enabled(p, s, c) && s' == Apply(p, s, c);
      FlagEffects(p, s, c);
      TotalGrows(p, s, s', c, p.n);
    }
  }

  /** Runs are bounded, so a run that cannot be extended has finished everywhere. */
  lemma ReduceTerminates(p: Chain, tr: seq<State>)
    requires Valid(p) && Run(p, tr)
    ensures |tr| <= 1 + Times(p.n, Start(p, |p.calls|))
  {
    RunTotal(p, tr);
    TotalBound(p, tr[|tr| - 1], p.n);
  }
}
