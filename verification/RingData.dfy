/** What the buffers of a ring hold in every reachable state, and why no send
    destroys data that is still needed. */
module RingData {
  import opened Cycle
  import opened Memory
  import opened Terms
  import opened RingSchedule
  import opened RingMachine

  /** A card that is past the handshake of chunk g has a successor that reached g. */
  lemma HandshakeHolds(r: Ring, s: State, p: nat, g: nat)
    requires 2 <= r.n && Control(r, s) && p < r.n && g < |r.chunks| && r.chunks[g].opens
    requires Pushes(r, s.pc[p]) > Base(r, g)
    ensures s.pc[Next(r.n, p)].g >= g
  {
    var d := Next(r.n, p);
    assert CardOk(r, s, p);
    ReachedChunk(r, s.pc[p], g);
    if s.pc[p].g > g { ShakesMono(r, g + 1, s.pc[p].g); }
    if s.pc[d].g < g { ShakesMono(r, s.pc[d].g + 1, g); }
  }

  /** A card in chunk g has a successor that is at most one chunk behind. */
  lemma OneChunkBehind(r: Ring, s: State, p: nat, g: nat)
    requires 2 <= r.n && Valid(r) && Control(r, s) && p < r.n && 0 < g < |r.chunks|
    requires Pushes(r, s.pc[p]) > Base(r, g)
    ensures s.pc[Next(r.n, p)].g >= g - 1
  {
    var d := Next(r.n, p);
    SuccessorBound(r, s, p);
    if s.pc[d].g < g - 1 { BaseMono(r, s.pc[d].g + 1, g - 1); }
  }

  /** If card p has pushed anything of chunk g, its successor is done with every
      earlier chunk that lives in the same half. */
  lemma HalfIsFree(r: Ring, s: State, p: nat, g: nat, h: nat)
    requires Valid(r) && Control(r, s) && p < r.n && h < g < |r.chunks|
    requires r.chunks[h].half == r.chunks[g].half
    requires Pushes(r, s.pc[p]) > Base(r, g)
    ensures s.pc[Next(r.n, p)].g > h
  {
    OneChunkBehind(r, s, p, g);
    if r.chunks[g].opens { HandshakeHolds(r, s, p, g); }
  }

  /** A card that pushed more than Base(g) blocks is in chunk g or beyond. */
  lemma ReachedChunk(r: Ring, pc: Pc, g: nat)
    requires 2 <= r.n && pc.g <= |r.chunks| && PcOk(r, pc) && g < |r.chunks|
    requires Pushes(r, pc) > Base(r, g)
    ensures pc.g >= g && (pc.g == g ==> PushedIn(r.n, Kinds(r, g), pc.st) > 0)
  {
    BaseMono(r, if pc.g < g then pc.g + 1 else g, g);
  }

  /** The `t`-th push of chunk g is out and is the last one to its slot, and the
      receiver is not done with the chunk. */
  ghost predicate Live(r: Ring, s: State, p: nat, g: nat, t: nat)
    requires 2 <= r.n && PcsOk(r, s) && p < r.n
  {
    && g < |r.chunks| && t < Sends(r.n, Kinds(r, g))
    && s.pc[Next(r.n, p)].g <= g
    && Base(r, g) + t < Pushes(r, s.pc[p])
    && (t + r.n < Sends(r.n, Kinds(r, g)) ==> Pushes(r, s.pc[p]) <= Base(r, g) + t + r.n)
  }

  /** What the receiver's slot holds: the block as sent, or with its own share folded in. */
  ghost function Content(r: Ring, s: State, p: nat, g: nat, t: nat): Term
    requires 2 <= r.n && PcsOk(r, s) && p < r.n && Live(r, s, p, g, t)
  {
    var d := Next(r.n, p);
    var folded := s.pc[d].g == g && t < Folds(r.n, Kinds(r, g)) && t < FoldedIn(r.n, Kinds(r, g), s.pc[d].st);
    if folded then Val(r, g, d, t + 1) else Val(r, g, p, t)
  }

  ghost predicate OutOk(r: Ring, s: State, p: nat, g: nat, t: nat)
    requires 2 <= r.n && PcsOk(r, s) && p < r.n
  {
    Live(r, s, p, g, t) ==>
      Get(s.out[Next(r.n, p)], Range(r.n, r.chunks[g], Back(r.n, p, t))) == Content(r, s, p, g, t)
  }

  /** A card's own data of its current chunk is where it loaded it. */
  ghost predicate OwnOk(r: Ring, s: State, c: nat)
    requires 2 <= r.n && PcsOk(r, s) && c < r.n
  {
    var Pc(g, st) := s.pc[c];
    g < |r.chunks| && LoadedIn(st) ==>
      if Kinds(r, g) == AllGather then Get(s.out[c], Range(r.n, r.chunks[g], c)) == Leaf(c, g, c)
      else forall o :: 0 <= o < r.n ==> InOk(r, s, c, g, o)
  }

  ghost predicate InOk(r: Ring, s: State, c: nat, g: nat, o: nat)
    requires 2 <= r.n && PcsOk(r, s) && c < r.n && g < |r.chunks| && o < r.n
  {
    Get(s.inb[c], Range(r.n, r.chunks[g], o)) == Leaf(c, g, SlotNo(r.n, Kinds(r, g), o))
  }

  ghost predicate Buffers(r: Ring, s: State)
    requires 2 <= r.n && PcsOk(r, s)
  {
    && (forall p: nat, g: nat, t: nat :: p < r.n ==> OutOk(r, s, p, g, t))
    && (forall c: nat :: c < r.n ==> OwnOk(r, s, c))
  }

  /** A block that card d waited for is live, and nothing newer overwrote it. */
  lemma ArrivedIsLive(r: Ring, s: State, d: nat, t: nat)
    requires Valid(r) && Control(r, s) && At(r, s, d)
    requires t < Sends(r.n, Kinds(r, s.pc[d].g))
    requires t < WaitedIn(r.n, Kinds(r, s.pc[d].g), s.pc[d].st)
    requires SentIn(r.n, Kinds(r, s.pc[d].g), s.pc[d].st) <= t + 1
    ensures Live(r, s, Prev(r.n, d), s.pc[d].g, t)
  {
    var p := Prev(r.n, d);
    assert CardOk(r, s, d) && Next(r.n, p) == d;
    SuccessorBound(r, s, p);
  }

  /** What a card sends is the value the schedule says. */
  lemma OutgoingIs(r: Ring, s: State, c: nat)
    requires Valid(r) && Control(r, s) && Buffers(r, s) && At(r, s, c) && s.pc[c].st.Push?
    ensures Outgoing(r, s, c, s.pc[c].st.t) == Val(r, s.pc[c].g, c, s.pc[c].st.t)
  {
    var Pc(g, Push(t)) := s.pc[c];
    var p := Prev(r.n, c);
    if t == 0 {
      assert OwnOk(r, s, c) && Back(r.n, c, 0) == c;
      assert Kinds(r, g) != AllGather ==> InOk(r, s, c, g, c);
    } else {
      ArrivedIsLive(r, s, c, t - 1);
      assert OutOk(r, s, p, g, t - 1) && Next(r.n, p) == c;
      assert Back(r.n, p, t - 1) == Back(r.n, c, t);
    }
  }

  /** Two pushes of one chunk by one card meet in a slot only if they are n apart. */
  lemma SameOrigin(n: nat, p: nat, t: nat, u: nat)
    requires 2 <= n && p < n && t < u < 2 * n && Back(n, p, t) == Back(n, p, u)
    ensures u == t + n
  {
  }

  /** A push leaves every other live block alone: blocks of the same chunk are in
      other slots, and a block of an older chunk is in the other half. */
  lemma PushMisses(r: Ring, s: State, c: nat, g: nat, t: nat)
    requires Valid(r) && Control(r, s) && At(r, s, c) && s.pc[c].st.Push?
    requires Control(r, Apply(r, s, c)) && Live(r, Apply(r, s, c), c, g, t)
    requires !(g == s.pc[c].g && t == s.pc[c].st.t)
    ensures
      var (a, b) := (Range(r.n, r.chunks[g], Back(r.n, c, t)),
                     Range(r.n, r.chunks[s.pc[c].g], Back(r.n, c, s.pc[c].st.t)));
      a != b && !Overlap(a, b)
  {
    var s' := Apply(r, s, c);
    var Pc(h, Push(u)) := s.pc[c];
    CounterStep(r, s.pc[c]);
    ReachedChunk(r, s'.pc[c], g);
    if g == h {
      if Back(r.n, c, t) == Back(r.n, c, u) { SameOrigin(r.n, c, t, u); }
    } else if r.chunks[g].half == r.chunks[h].half {
      HalfIsFree(r, s', c, h, g);
    }
    RangesApart(r.n, r.chunks[g], Back(r.n, c, t), r.chunks[h], Back(r.n, c, u));
  }

  lemma PushLands(r: Ring, s: State, c: nat)
    requires Valid(r) && Control(r, s) && Buffers(r, s) && At(r, s, c) && s.pc[c].st.Push?
    requires Control(r, Apply(r, s, c))
    ensures OutOk(r, Apply(r, s, c), c, s.pc[c].g, s.pc[c].st.t)
  {
    var s' := Apply(r, s, c);
    var Pc(g, Push(t)) := s.pc[c];
    var d := Next(r.n, c);
    OutgoingIs(r, s, c);
    assert CardOk(r, s, d) && Prev(r.n, d) == c;
    if Live(r, s', c, g, t) {
      assert Content(r, s', c, g, t) == Val(r, g, c, t);
    }
  }

  /** A block that is live after a step was live before it with the same content,
      unless the step pushed it or folded into it. */
  lemma StaysLive(r: Ring, s: State, s': State, c: nat, p: nat, g: nat, t: nat)
    requires 2 <= r.n && PcsOk(r, s) && At(r, s, c) && p < r.n
    requires PcsOk(r, s') && s'.pc == s.pc[c := Advance(r, s.pc[c])] && Live(r, s', p, g, t)
    requires !(g == s.pc[c].g && ((p == c && s.pc[c].st == Push(t)) || (Next(r.n, p) == c && s.pc[c].st == Fold(t))))
    ensures Live(r, s, p, g, t) && Content(r, s, p, g, t) == Content(r, s', p, g, t)
  {
    CounterStep(r, s.pc[c]);
    if p == c {
      var pc := s.pc[c];
      if pc.st.Push? && Pushes(r, s'.pc[c]) == Base(r, g) + t + 1 {
        if g < pc.g { BaseMono(r, g + 1, pc.g); } else { BaseMono(r, pc.g + 1, if pc.g < g then g else pc.g + 1); }
      }
      assert Live(r, s, p, g, t);
    }
  }

  /** A push lands as the schedule says and leaves every other live block alone. */
  lemma PushKeepsOut(r: Ring, s: State, c: nat, g: nat, t: nat)
    requires Valid(r) && Control(r, s) && Buffers(r, s) && At(r, s, c) && s.pc[c].st.Push?
    requires Control(r, Apply(r, s, c))
    ensures OutOk(r, Apply(r, s, c), c, g, t)
  {
    var s' := Apply(r, s, c);
    if g == s.pc[c].g && t == s.pc[c].st.t {
      PushLands(r, s, c);
    } else if Live(r, s', c, g, t) {
      PushMisses(r, s, c, g, t);
      StaysLive(r, s, s', c, c, g, t);
      assert OutOk(r, s, c, g, t);
    }
  }

  /** Reducing a block leaves every other live block alone. */
  lemma FoldMisses(r: Ring, s: State, d: nat, g: nat, t: nat)
    requires Valid(r) && Control(r, s) && At(r, s, d) && s.pc[d].st.Fold?
    requires Live(r, s, Prev(r.n, d), g, t)
    requires !(g == s.pc[d].g && t == s.pc[d].st.t)
    ensures
      var p := Prev(r.n, d);
      var (a, b) := (Range(r.n, r.chunks[g], Back(r.n, p, t)),
                     Range(r.n, r.chunks[s.pc[d].g], Back(r.n, p, s.pc[d].st.t)));
      a != b && !Overlap(a, b)
  {
    var p := Prev(r.n, d);
    var Pc(h, Fold(u)) := s.pc[d];
    ArrivedIsLive(r, s, d, u);
    ReachedChunk(r, s.pc[p], g);
    if g == h {
      if t < u && Back(r.n, p, t) == Back(r.n, p, u) { SameOrigin(r.n, p, t, u); }
      if u < t && Back(r.n, p, t) == Back(r.n, p, u) { SameOrigin(r.n, p, u, t); }
    } else if r.chunks[g].half == r.chunks[h].half {
      HalfIsFree(r, s, p, g, h);
    }
    RangesApart(r.n, r.chunks[g], Back(r.n, p, t), r.chunks[h], Back(r.n, p, u));
  }

  /** A card reduces its share into the block that arrived and touches no other. */
  lemma FoldKeepsOut(r: Ring, s: State, d: nat, g: nat, t: nat)
    requires Valid(r) && Control(r, s) && Buffers(r, s) && At(r, s, d) && s.pc[d].st.Fold?
    requires Control(r, Apply(r, s, d))
    ensures OutOk(r, Apply(r, s, d), Prev(r.n, d), g, t)
  {
    var s' := Apply(r, s, d);
    var p := Prev(r.n, d);
    assert Next(r.n, p) == d;
    if Live(r, s', p, g, t) {
      assert Live(r, s, p, g, t) && OutOk(r, s, p, g, t);
      if g == s.pc[d].g && t == s.pc[d].st.t {
        FoldStores(r, s, d);
      } else {
        FoldMisses(r, s, d, g, t);
      }
    }
  }

  lemma FoldStores(r: Ring, s: State, d: nat)
    requires Valid(r) && Control(r, s) && Buffers(r, s) && At(r, s, d) && s.pc[d].st.Fold?
    requires Control(r, Apply(r, s, d))
    ensures OutOk(r, Apply(r, s, d), Prev(r.n, d), s.pc[d].g, s.pc[d].st.t)
  {
    var p := Prev(r.n, d);
    var Pc(g, Fold(t)) := s.pc[d];
    assert Next(r.n, p) == d && OutOk(r, s, p, g, t);
    if Live(r, Apply(r, s, d), p, g, t) {
      assert Live(r, s, p, g, t);
      if t < Folds(r.n, Kinds(r, g)) { FoldValue(r, s, d); }
    }
  }

  /** The value that a reducing card stores is the one it will send next. */
  lemma FoldValue(r: Ring, s: State, d: nat)
    requires Valid(r) && Control(r, s) && Buffers(r, s) && At(r, s, d) && s.pc[d].st.Fold?
    requires s.pc[d].st.t < Folds(r.n, Kinds(r, s.pc[d].g))
    ensures
      var Pc(g, Fold(t)) := s.pc[d];
      var range := Range(r.n, r.chunks[g], Back(r.n, Prev(r.n, d), t));
      Node(Get(s.inb[d], range), Get(s.out[d], range)) == Val(r, g, d, t + 1)
  {
    var Pc(g, Fold(t)) := s.pc[d];
    var p := Prev(r.n, d);
    var o := Back(r.n, p, t);
    ArrivedIsLive(r, s, d, t);
    assert OutOk(r, s, p, g, t) && Next(r.n, p) == d;
    assert OwnOk(r, s, d) && InOk(r, s, d, g, o);
    assert Back(r.n, d, t + 1) == o && Ahead(r.n, o, t + 1) == d;
  }

  /** Loading touches only what the card itself owns. */
  lemma LoadKeepsOut(r: Ring, s: State, c: nat, g: nat, t: nat)
    requires Valid(r) && Control(r, s) && Buffers(r, s) && At(r, s, c) && s.pc[c].st.Load?
    requires Control(r, Apply(r, s, c))
    ensures OutOk(r, Apply(r, s, c), Prev(r.n, c), g, t)
  {
    var s' := Apply(r, s, c);
    var p := Prev(r.n, c);
    if Live(r, s', p, g, t) {
      var h := s.pc[c].g;
      assert Next(r.n, p) == c;
      assert Live(r, s, p, g, t) && OutOk(r, s, p, g, t);
      if Kinds(r, h) == AllGather {
        ReachedChunk(r, s.pc[p], g);
        if g == h {
          assert Back(r.n, p, t) != c;
        } else if r.chunks[g].half == r.chunks[h].half {
          HalfIsFree(r, s, p, g, h);
        }
        RangesApart(r.n, r.chunks[g], Back(r.n, p, t), r.chunks[h], c);
      }
    }
  }

  lemma BuffersStep(r: Ring, s: State, c: nat)
    requires Valid(r) && Control(r, s) && Buffers(r, s) && At(r, s, c) && Enabled(r, s, c)
    requires Control(r, Apply(r, s, c))
    ensures Buffers(r, Apply(r, s, c))
  {
    var s' := Apply(r, s, c);
    forall p: nat, g: nat, t: nat | p < r.n ensures OutOk(r, s', p, g, t) {
      OutStep(r, s, c, p, g, t);
    }
    forall d: nat | d < r.n ensures OwnOk(r, s', d) {
      OwnStep(r, s, c, d);
    }
  }

  lemma OutStep(r: Ring, s: State, c: nat, p: nat, g: nat, t: nat)
    requires Valid(r) && Control(r, s) && Buffers(r, s) && At(r, s, c) && Enabled(r, s, c) && p < r.n
    requires Control(r, Apply(r, s, c))
    ensures OutOk(r, Apply(r, s, c), p, g, t)
  {
    var s' := Apply(r, s, c);
    if s.pc[c].st.Push? && p == c {
      PushKeepsOut(r, s, c, g, t);
    } else if s.pc[c].st.Fold? && Next(r.n, p) == c {
      FoldKeepsOut(r, s, c, g, t);
    } else if s.pc[c].st.Load? && Next(r.n, p) == c {
      LoadKeepsOut(r, s, c, g, t);
    } else {
      assert OutOk(r, s, p, g, t);
      if Live(r, s', p, g, t) { StaysLive(r, s, s', c, p, g, t); }
    }
  }

  lemma OwnStep(r: Ring, s: State, c: nat, d: nat)
    requires Valid(r) && Control(r, s) && Buffers(r, s) && At(r, s, c) && Enabled(r, s, c) && d < r.n
    requires Control(r, Apply(r, s, c))
    ensures OwnOk(r, Apply(r, s, c), d)
  {
    var s' := Apply(r, s, c);
    var Pc(g, st) := s'.pc[d];
    if g < |r.chunks| && LoadedIn(st) {
      assert OwnOk(r, s, d);
      if Kinds(r, g) == AllGather {
        if s.pc[c].st.Push? && d == Next(r.n, c) { PushMissesOwn(r, s, c); }
      } else {
        forall o: nat | o < r.n ensures InOk(r, s', d, g, o) {
          if c == d && s.pc[c].st.Load? {
            ImageGet(r, g, d, s.inb[d], r.n, o);
          } else {
            assert InOk(r, s, d, g, o);
          }
        }
      }
    }
  }

  /** A push never touches the block that the receiver itself put into an AllGather. */
  lemma PushMissesOwn(r: Ring, s: State, c: nat)
    requires Valid(r) && Control(r, s) && At(r, s, c) && s.pc[c].st.Push?
    requires Control(r, Apply(r, s, c))
    requires
      var Pc(g, st) := s.pc[Next(r.n, c)];
      g < |r.chunks| && Kinds(r, g) == AllGather && LoadedIn(st)
    ensures
      var d := Next(r.n, c);
      var (a, b) := (Range(r.n, r.chunks[s.pc[d].g], d), Range(r.n, r.chunks[s.pc[c].g], Back(r.n, c, s.pc[c].st.t)));
      a != b && !Overlap(a, b)
  {
    var d := Next(r.n, c);
    var (g, h) := (s.pc[d].g, s.pc[c].g);
    CounterStep(r, s.pc[c]);
    if h == g {
      assert Back(r.n, c, s.pc[c].st.t) != d;
    } else if r.chunks[g].half == r.chunks[h].half {
      if h < g {
        assert CardOk(r, s, d) && Prev(r.n, d) == c;
        BaseMono(r, h + 1, g);
      } else {
        HalfIsFree(r, Apply(r, s, c), c, h, g);
      }
    }
    RangesApart(r.n, r.chunks[g], d, r.chunks[h], Back(r.n, c, s.pc[c].st.t));
  }
}
