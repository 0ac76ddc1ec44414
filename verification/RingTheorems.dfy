/** The ring collectives deliver the right data, free of races and deadlock, in
    every interleaving of every sequence of calls. */
module RingTheorems {
  import opened Cycle
  import opened Memory
  import opened Terms
  import opened RingSchedule
  import opened RingMachine
  import opened RingData

  // ---- what has been delivered -------------------------------------------------

  predicate Has(s: State, c: nat, key: (nat, nat), v: Term)
    requires c < |s.user|
  {
    key in s.user[c] && s.user[c][key] == v
  }

  /** Card c's user holds the result of chunk g: every slot reduced over all cards,
      every card's block, or the slot that belongs to c reduced over all cards. */
  ghost predicate Complete(r: Ring, s: State, c: nat, g: nat)
    requires 2 <= r.n && Shape(r, s) && c < r.n && g < |r.chunks|
  {
    match Kinds(r, g)
    case AllReduce => forall o :: 0 <= o < r.n ==> Has(s, c, (g, o), Full(r, g, o))
    case AllGather => forall o :: 0 <= o < r.n ==> Has(s, c, (g, o), Leaf(o, g, o))
    case ReduceScatter => Has(s, c, (g, c), Full(r, g, Next(r.n, c)))
  }

  /** How far an AllGather chunk has been delivered. */
  ghost predicate Gathered(r: Ring, s: State, c: nat)
    requires 2 <= r.n && PcsOk(r, s) && c < r.n
  {
    var Pc(g, st) := s.pc[c];
    g < |r.chunks| && Kinds(r, g) == AllGather && LoadedIn(st) ==>
      && Has(s, c, (g, c), Leaf(c, g, c))
      && forall t :: 0 <= t < FoldedIn(r.n, Kinds(r, g), st) ==>
           var o := Back(r.n, Prev(r.n, c), t); Has(s, c, (g, o), Leaf(o, g, o))
  }

  ghost predicate Delivered(r: Ring, s: State)
    requires 2 <= r.n && PcsOk(r, s)
  {
    && (forall c, g :: 0 <= c < r.n && 0 <= g < s.pc[c].g ==> Complete(r, s, c, g))
    && (forall c :: 0 <= c < r.n ==> Gathered(r, s, c))
  }

  /** When a card copies out an AllReduce chunk, every slot holds the complete fold. */
  lemma AllReduced(r: Ring, s: State, c: nat, o: nat)
    requires Valid(r) && Control(r, s) && Buffers(r, s) && At(r, s, c) && o < r.n
    requires s.pc[c].st.CopyOut? && Kinds(r, s.pc[c].g) == AllReduce
    ensures Get(s.out[c], Range(r.n, r.chunks[s.pc[c].g], o)) == Full(r, s.pc[c].g, o)
  {
    var g := s.pc[c].g;
    var p := Prev(r.n, c);
    var t := Back(r.n, p, o);
    var u := if t + r.n < 2 * r.n - 2 then t + r.n else t;
    assert Next(r.n, p) == c;
    WrittenLast(r, p, o, u);
    LastIsLive(r, s, c, u);
    assert OutOk(r, s, p, g, u);
  }

  /** The blocks of the last lap are in the out-buffer when the copy begins. */
  lemma LastIsLive(r: Ring, s: State, c: nat, u: nat)
    requires Valid(r) && Control(r, s) && At(r, s, c) && r.n - 2 <= u < 2 * r.n - 2
    requires s.pc[c].st.CopyOut? && Kinds(r, s.pc[c].g) == AllReduce
    ensures Live(r, s, Prev(r.n, c), s.pc[c].g, u)
  {
    assert CardOk(r, s, c) && Next(r.n, Prev(r.n, c)) == c;
    SuccessorBound(r, s, Prev(r.n, c));
  }

  /** The last two laps of sends by the previous card reach slot o in block u. */
  lemma WrittenLast(r: Ring, p: nat, o: nat, u: nat)
    requires 2 <= r.n && p < r.n && o < r.n
    requires u == (var t := Back(r.n, p, o); if t + r.n < 2 * r.n - 2 then t + r.n else t)
    ensures r.n - 2 <= u < 2 * r.n - 2 && Back(r.n, p, u) == o
      && (u == r.n - 2 ==> Back(r.n, Next(r.n, p), r.n - 1) == o)
  {
  }

  /** When a card copies out a ReduceScatter chunk, only its own share is missing. */
  lemma Scattered(r: Ring, s: State, c: nat)
    requires Valid(r) && Control(r, s) && Buffers(r, s) && At(r, s, c)
    requires s.pc[c].st.CopyOut? && Kinds(r, s.pc[c].g) == ReduceScatter
    ensures
      var range := Range(r.n, r.chunks[s.pc[c].g], Next(r.n, c));
      Node(Get(s.inb[c], range), Get(s.out[c], range)) == Full(r, s.pc[c].g, Next(r.n, c))
  {
    var g := s.pc[c].g;
    var (p, o) := (Prev(r.n, c), Next(r.n, c));
    ArrivedIsLive(r, s, c, r.n - 2);
    assert Next(r.n, p) == c && Back(r.n, p, r.n - 2) == o;
    assert OutOk(r, s, p, g, r.n - 2);
    assert OwnOk(r, s, c) && InOk(r, s, c, g, o);
    assert Ahead(r.n, o, r.n - 1) == c;
  }

  /** The block that an AllGather hands to the user is the one its origin put in. */
  lemma GatheredBlock(r: Ring, s: State, c: nat)
    requires Valid(r) && Control(r, s) && Buffers(r, s) && At(r, s, c)
    requires s.pc[c].st.Fold? && Kinds(r, s.pc[c].g) == AllGather
    ensures
      var o := Back(r.n, Prev(r.n, c), s.pc[c].st.t);
      Get(s.out[c], Range(r.n, r.chunks[s.pc[c].g], o)) == Leaf(o, s.pc[c].g, o)
  {
    var Pc(g, Fold(t)) := s.pc[c];
    var p := Prev(r.n, c);
    ArrivedIsLive(r, s, c, t);
    assert OutOk(r, s, p, g, t) && Next(r.n, p) == c;
  }

  lemma DeliveredStep(r: Ring, s: State, c: nat)
    requires Valid(r) && Control(r, s) && Buffers(r, s) && Delivered(r, s) && At(r, s, c) && Enabled(r, s, c)
    requires Control(r, Apply(r, s, c))
    ensures Delivered(r, Apply(r, s, c))
  {
    var s' := Apply(r, s, c);
    forall d, g | 0 <= d < r.n && 0 <= g < s'.pc[d].g ensures Complete(r, s', d, g) {
      if d == c && g == s.pc[c].g {
        CompletesChunk(r, s, c);
      } else {
        assert Complete(r, s, d, g);
        StaysComplete(r, s, c, d, g);
      }
    }
    forall d | 0 <= d < r.n ensures Gathered(r, s', d) {
      assert Gathered(r, s, d);
      if d == c && s.pc[c].st.Fold? && Kinds(r, s.pc[c].g) == AllGather { GatheredBlock(r, s, c); }
    }
  }

  lemma StaysComplete(r: Ring, s: State, c: nat, d: nat, g: nat)
    requires 2 <= r.n && At(r, s, c) && Enabled(r, s, c) && d < r.n && g < |r.chunks|
    requires Complete(r, s, d, g) && !(d == c && g == s.pc[c].g)
    ensures Complete(r, Apply(r, s, c), d, g)
  {
    var s' := Apply(r, s, c);
    forall o: nat, v: Term | Has(s, d, (g, o), v) ensures Has(s', d, (g, o), v) {
    }
  }

  lemma CompletesChunk(r: Ring, s: State, c: nat)
    requires Valid(r) && Control(r, s) && Buffers(r, s) && Delivered(r, s) && At(r, s, c) && Enabled(r, s, c)
    requires s.pc[c].st.CopyOut?
    ensures Complete(r, Apply(r, s, c), c, s.pc[c].g)
  {
    match Kinds(r, s.pc[c].g)
    case AllReduce => CompletesAllReduce(r, s, c);
    case AllGather => CompletesAllGather(r, s, c);
    case ReduceScatter => Scattered(r, s, c);
  }

  lemma CompletesAllReduce(r: Ring, s: State, c: nat)
    requires Valid(r) && Control(r, s) && Buffers(r, s) && At(r, s, c) && Enabled(r, s, c)
    requires s.pc[c].st.CopyOut? && Kinds(r, s.pc[c].g) == AllReduce
    ensures Complete(r, Apply(r, s, c), c, s.pc[c].g)
  {
    var g := s.pc[c].g;
    forall o: nat | o < r.n ensures Get(s.out[c], Range(r.n, r.chunks[g], o)) == Full(r, g, o) {
      AllReduced(r, s, c, o);
    }
    CopiesOut(r, s, c);
  }

  lemma CopiesOut(r: Ring, s: State, c: nat)
    requires 2 <= r.n && At(r, s, c) && Enabled(r, s, c)
    requires s.pc[c].st.CopyOut? && Kinds(r, s.pc[c].g) == AllReduce
    requires forall o :: 0 <= o < r.n ==>
      Get(s.out[c], Range(r.n, r.chunks[s.pc[c].g], o)) == Full(r, s.pc[c].g, o)
    ensures Complete(r, Apply(r, s, c), c, s.pc[c].g)
  {
  }

  lemma CompletesAllGather(r: Ring, s: State, c: nat)
    requires Valid(r) && Control(r, s) && Delivered(r, s) && At(r, s, c) && Enabled(r, s, c)
    requires s.pc[c].st.CopyOut? && Kinds(r, s.pc[c].g) == AllGather
    ensures Complete(r, Apply(r, s, c), c, s.pc[c].g)
  {
    var g := s.pc[c].g;
    var p := Prev(r.n, c);
    assert Gathered(r, s, c);
    forall o: nat | o < r.n ensures Has(s, c, (g, o), Leaf(o, g, o)) {
      if o != c {
        var t := Back(r.n, p, o);
        assert Back(r.n, p, t) == o;
      }
    }
  }

  // ---- whole runs ----------------------------------------------------------------

  ghost predicate Inv(r: Ring, s: State)
    requires 2 <= r.n
  {
    Control(r, s) && Buffers(r, s) && Delivered(r, s)
  }

  ghost predicate Run(r: Ring, tr: seq<State>)
    requires 2 <= r.n
  {
    && tr != [] && Init(r, tr[0])
    && (forall i :: 0 <= i < |tr| ==> Shape(r, tr[i]))
    && (forall i :: 0 < i < |tr| ==> Step(r, tr[i - 1], tr[i]))
  }

  lemma InitBuffers(r: Ring, s: State)
    requires Valid(r) && Init(r, s) && PcsOk(r, s)
    ensures Buffers(r, s) && Delivered(r, s)
  {
    forall p: nat, g: nat, t: nat | p < r.n ensures OutOk(r, s, p, g, t) {
      if Live(r, s, p, g, t) { BaseMono(r, 0, g); }
    }
  }

  lemma {:induction false} RunInv(r: Ring, tr: seq<State>)
    requires Valid(r) && Run(r, tr)
    ensures Inv(r, tr[|tr| - 1])
    decreases |tr|
  {
    if |tr| == 1 {
      InitControl(r, tr[0]);
      InitBuffers(r, tr[0]);
    } else {
      var s := tr[|tr| - 2];
      assert tr[..|tr| - 1][|tr| - 2] == s;
      RunInv(r, tr[..|tr| - 1]);
      assert Step(r, s, tr[|tr| - 1]);
      var c: nat :| At(r, s, c) && Enabled(r, s, c) && tr[|tr| - 1] == Apply(r, s, c);
      InvStep(r, s, c);
    }
  }

  lemma InvStep(r: Ring, s: State, c: nat)
    requires Valid(r) && Inv(r, s) && At(r, s, c) && Enabled(r, s, c)
    ensures Inv(r, Apply(r, s, c))
  {
    ControlStep(r, s, c);
    BuffersStep(r, s, c);
    DeliveredStep(r, s, c);
  }

  /** Whatever the interleaving, a card that has left a chunk has its result. */
  lemma RingDelivers(r: Ring, tr: seq<State>, c: nat, g: nat)
    requires Valid(r) && Run(r, tr) && c < r.n
    requires g < tr[|tr| - 1].pc[c].g
    ensures g < |r.chunks| && Complete(r, tr[|tr| - 1], c, g)
  {
    RunInv(r, tr);
  }

  /** The ring law: the T-th push of a card comes after send T-n+1 of its successor. */
  lemma SendSpacing(r: Ring, tr: seq<State>, c: nat)
    requires Valid(r) && Run(r, tr) && c < r.n
    ensures
      var s := tr[|tr| - 1];
      && s.pc[c].g <= |r.chunks| && s.pc[Next(r.n, c)].g <= |r.chunks|
      && Pushes(r, s.pc[c]) - r.n + 1 <= Sent(r, s.pc[Next(r.n, c)])
  {
    RunInv(r, tr);
    SuccessorBound(r, tr[|tr| - 1], c);
  }

  // ---- race freedom ----------------------------------------------------------------

  /** Card d, at `pc`, reads or writes the slot of origin `o` of its receive buffer;
      no other card but its predecessor accesses that buffer. */
  predicate Touches(r: Ring, pc: Pc, d: nat, o: nat)
    requires 2 <= r.n && d < r.n && o < r.n && pc.g < |r.chunks| && PcOk(r, pc)
  {
    var kind := Kinds(r, pc.g);
    match pc.st
    case Load => kind == AllGather && o == d
    case Push(t) => (t > 0 || kind == AllGather) && o == Back(r.n, d, t)
    case Fold(t) => o == Back(r.n, Prev(r.n, d), t)
    case CopyOut => kind == AllReduce || (kind == ReduceScatter && o == Next(r.n, d))
    case _ => false
  }

  /** While a push is in flight the receiver is nowhere near the bytes it writes. */
  lemma RaceFree(r: Ring, tr: seq<State>, c: nat, o: nat)
    requires Valid(r) && Run(r, tr) && c < r.n
    requires
      var (pc, pd) := (tr[|tr| - 1].pc[c], tr[|tr| - 1].pc[Next(r.n, c)]);
      && pc.g < |r.chunks| && pc.st.Push? && PcOk(r, pc)
      && pd.g < |r.chunks| && PcOk(r, pd) && o < r.n && Touches(r, pd, Next(r.n, c), o)
    ensures
      var (pc, pd) := (tr[|tr| - 1].pc[c], tr[|tr| - 1].pc[Next(r.n, c)]);
      !Overlap(Range(r.n, r.chunks[pc.g], Back(r.n, c, pc.st.t)), Range(r.n, r.chunks[pd.g], o))
  {
    RunInv(r, tr);
    NoOverlap(r, tr[|tr| - 1], c, o);
  }

  /** Within one chunk the receiver is behind the push, by less than n steps. */
  lemma PushGap(r: Ring, s: State, c: nat)
    requires 2 <= r.n && Valid(r) && Control(r, s) && At(r, s, c) && s.pc[c].st.Push?
    requires At(r, s, Next(r.n, c)) && s.pc[Next(r.n, c)].g == s.pc[c].g
    ensures
      var (kind, st) := (Kinds(r, s.pc[c].g), s.pc[Next(r.n, c)].st);
      WaitedIn(r.n, kind, st) <= s.pc[c].st.t < SentIn(r.n, kind, st) + r.n - 1
  {
    ControlStep(r, s, c);
    CounterStep(r, s.pc[c]);
    SuccessorBound(r, Apply(r, s, c), c);
    assert CardOk(r, s, Next(r.n, c)) && Prev(r.n, Next(r.n, c)) == c;
  }

  lemma OtherSlot(r: Ring, s: State, c: nat, o: nat)
    requires Valid(r) && Control(r, s) && At(r, s, c) && s.pc[c].st.Push?
    requires At(r, s, Next(r.n, c)) && o < r.n && Touches(r, s.pc[Next(r.n, c)], Next(r.n, c), o)
    requires s.pc[Next(r.n, c)].g == s.pc[c].g
    ensures o != Back(r.n, c, s.pc[c].st.t)
  {
    PushGap(r, s, c);
    var d := Next(r.n, c);
    var t := s.pc[c].st.t;
    match s.pc[d].st
    case Push(u) =>
      if u > 0 {
        assert Back(r.n, d, u) == Back(r.n, c, u - 1);
        if Back(r.n, c, u - 1) == Back(r.n, c, t) { SameOrigin(r.n, c, u - 1, t); }
      }
    case Fold(u) =>
      if Back(r.n, c, u) == Back(r.n, c, t) { SameOrigin(r.n, c, u, t); }
    case _ =>
  }

  lemma NoOverlap(r: Ring, s: State, c: nat, o: nat)
    requires Valid(r) && Control(r, s) && At(r, s, c) && s.pc[c].st.Push?
    requires At(r, s, Next(r.n, c)) && o < r.n && Touches(r, s.pc[Next(r.n, c)], Next(r.n, c), o)
    ensures
      var (pc, pd) := (s.pc[c], s.pc[Next(r.n, c)]);
      !Overlap(Range(r.n, r.chunks[pc.g], Back(r.n, c, pc.st.t)), Range(r.n, r.chunks[pd.g], o))
  {
    var d := Next(r.n, c);
    var (Pc(g, Push(t)), h) := (s.pc[c], s.pc[d].g);
    var s' := Apply(r, s, c);
    ControlStep(r, s, c);
    CounterStep(r, s.pc[c]);
    SuccessorBound(r, s', c);
    assert CardOk(r, s, d) && Prev(r.n, d) == c;
    if h == g {
      OtherSlot(r, s, c, o);
    } else if h > g {
      BaseMono(r, g + 1, h);
      assert false;
    } else if r.chunks[g].half == r.chunks[h].half {
      HalfIsFree(r, s', c, g, h);
    }
    RangesApart(r.n, r.chunks[g], Back(r.n, c, t), r.chunks[h], o);
  }
}
