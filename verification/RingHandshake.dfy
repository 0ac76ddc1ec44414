/** When ring AllReduces need the handshake between them.  The source sends it only when a
    node has more than one card (src/proc.cc, before tcclNicPublicWork), and every call of
    tcclNicPublicWork begins again in the first half of the cross buffer. */
module RingHandshake {
  import opened Arith
  import opened Cycle
  import opened Memory
  import opened RingHost
  import opened RingSchedule
  import opened RingMachine
  import opened RingProgress
  import opened RingTheorems

  /** Any AllReduce chunks whose slots fit, with or without handshakes, in either half. */
  ghost predicate Fits(r: Ring) {
    2 <= r.n && forall g :: 0 <= g < |r.chunks| ==> r.chunks[g].kind == AllReduce && ValidChunk(r.n, r.chunks[g])
  }

  /** Something keeps chunk g from the bytes of the chunk before it. */
  predicate Separated(r: Ring, g: nat)
    requires g < |r.chunks|
  {
    g > 0 ==> r.chunks[g].opens || r.chunks[g].half != r.chunks[g - 1].half
  }

  ghost predicate AllSeparated(r: Ring) {
    forall g: nat :: g < |r.chunks| ==> Separated(r, g)
  }

  /** Card c is about to push into bytes that its receiver is reading or writing as slot o. */
  ghost predicate Overwrites(r: Ring, s: State, c: nat, o: nat)
    requires 2 <= r.n
  {
    && At(r, s, c) && At(r, s, Next(r.n, c)) && s.pc[c].st.Push? && o < r.n
    && Touches(r, s.pc[Next(r.n, c)], Next(r.n, c), o)
    && var (pc, pd) := (s.pc[c], s.pc[Next(r.n, c)]);
       Overlap(Range(r.n, r.chunks[pc.g], Back(r.n, c, pc.st.t)), Range(r.n, r.chunks[pd.g], o))
  }

  ghost predicate NeverOverwrites(r: Ring)
    requires 2 <= r.n
  {
    forall tr: seq<State>, c: nat, o: nat :: SafeAfter(r, tr, c, o)
  }

  ghost predicate SafeAfter(r: Ring, tr: seq<State>, c: nat, o: nat)
    requires 2 <= r.n
  {
    Run(r, tr) ==> !Overwrites(r, tr[|tr| - 1], c, o)
  }

  /** For every number of cards and every sequence of AllReduce chunks, no run ever overwrites
      bytes in use exactly when every chunk but the first opens with the handshake or uses the
      other half than the chunk before it. */
  lemma HandshakeExact(r: Ring)
    requires Fits(r)
    ensures NeverOverwrites(r) <==> AllSeparated(r)
  {
    if AllSeparated(r) {
      forall g: nat | g < |r.chunks|
        ensures g > 0 ==> r.chunks[g].opens || r.chunks[g].half != r.chunks[g - 1].half
      {
        assert Separated(r, g);
      }
      forall tr: seq<State>, c: nat, o: nat ensures SafeAfter(r, tr, c, o) {
        if Run(r, tr) && Overwrites(r, tr[|tr| - 1], c, o) {
          RaceFree(r, tr, c, o);
          assert false;
        }
      }
    } else {
      var g: nat :| g < |r.chunks| && !Separated(r, g);
      var tr := Collision(r, g);
      assert !SafeAfter(r, tr, 0, 0);
    }
  }

  // ---- the colliding run ---------------------------------------------------------------------

  /** Card 0 is at its first push of chunk g, card 1 still at the end of the chunk before;
      the others have gone as far as they can. */
  function Goal(r: Ring, g: nat, c: nat): Pc
    requires 0 < g < |r.chunks|
  {
    if c == 0 then Pc(g, Push(0)) else if c == 1 then Pc(g - 1, CopyOut) else First(r, g)
  }

  lemma GoalOk(r: Ring, g: nat, c: nat)
    requires Fits(r) && 0 < g < |r.chunks| && !Separated(r, g) && c < r.n
    ensures PcOk(r, Goal(r, g, c))
  {
  }

  lemma Collision(r: Ring, g: nat) returns (tr: seq<State>)
    requires Fits(r) && g < |r.chunks| && !Separated(r, g)
    ensures Run(r, tr) && Overwrites(r, tr[|tr| - 1], 0, 0)
  {
    var s := AtRest(r, g);
    tr := Drive(r, g, [s]);
    GoalsCollide(r, g, tr[|tr| - 1]);
  }

  lemma GoalsCollide(r: Ring, g: nat, s: State)
    requires Fits(r) && g < |r.chunks| && !Separated(r, g) && Shape(r, s)
    requires s.pc[0] == Goal(r, g, 0) && s.pc[1] == Goal(r, g, 1)
    ensures Overwrites(r, s, 0, 0)
  {
    assert Back(r.n, 0, 0) == 0 && Touches(r, s.pc[1], 1, 0);
  }

  /** Empty buffers, and flags at the counters' values. */
  lemma AtRest(r: Ring, g: nat) returns (s: State)
    requires Fits(r) && g < |r.chunks| && !Separated(r, g)
    ensures Init(r, s) && Short(r, g, s)
  {
    var n := r.n;
    s := State(seq(n, _ => First(r, 0)), seq(n, _ => r.nextcnt), seq(n, _ => r.prevcnt),
               seq(n, _ => map[]), seq(n, _ => map[]), seq(n, _ => map[]));
    InitControl(r, s);
    StartMono(r, 1, g);
    forall c: nat | c < n ensures Position(r, s.pc[c]) <= Position(r, Goal(r, g, c)) {
      assert s.pc[c] == First(r, 0);
    }
  }

  ghost predicate Short(r: Ring, g: nat, s: State)
    requires Fits(r) && 0 < g < |r.chunks| && !Separated(r, g)
  {
    Control(r, s) && forall c :: 0 <= c < r.n ==> Position(r, s.pc[c]) <= Position(r, Goal(r, g, c))
  }

  function Goals(r: Ring, g: nat, k: nat): nat
    requires 2 <= r.n && 0 < g < |r.chunks|
  {
    if k == 0 then 0 else Goals(r, g, k - 1) + Position(r, Goal(r, g, k - 1))
  }

  lemma {:induction false} TotalShort(r: Ring, g: nat, s: State, k: nat)
    requires Fits(r) && 0 < g < |r.chunks| && !Separated(r, g) && Short(r, g, s) && k <= r.n
    ensures Total(r, s, k) <= Goals(r, g, k)
    decreases k
  {
    if k > 0 { TotalShort(r, g, s, k - 1); }
  }

  /** Whoever is furthest behind of those short of their goals can go on, so all get there. */
  lemma {:induction false} Drive(r: Ring, g: nat, tr0: seq<State>) returns (tr: seq<State>)
    requires Fits(r) && g < |r.chunks| && !Separated(r, g) && Run(r, tr0) && Short(r, g, tr0[|tr0| - 1])
    ensures Run(r, tr) && Shape(r, tr[|tr| - 1])
    ensures forall c :: 0 <= c < r.n ==> tr[|tr| - 1].pc[c] == Goal(r, g, c)
    decreases Goals(r, g, r.n) - Total(r, tr0[|tr0| - 1], r.n)
  {
    var s := tr0[|tr0| - 1];
    var found, c := Laggard(r, g, s, r.n);
    if !found {
      tr := tr0;
      forall c: nat | c < r.n ensures s.pc[c] == Goal(r, g, c) {
        GoalOk(r, g, c);
        SamePosition(r, s.pc[c], Goal(r, g, c));
      }
    } else {
      LaggardGoesOn(r, g, s, c);
      StaysShort(r, g, s, c);
      TotalShort(r, g, s, r.n);
      TotalShort(r, g, Apply(r, s, c), r.n);
      TotalGrows(r, s, Apply(r, s, c), c, r.n);
      var longer := Longer(r, tr0, c);
      tr := Drive(r, g, longer);
    }
  }

  lemma Longer(r: Ring, tr: seq<State>, c: nat) returns (tr': seq<State>)
    requires 2 <= r.n && Run(r, tr) && At(r, tr[|tr| - 1], c) && Enabled(r, tr[|tr| - 1], c)
    ensures Run(r, tr') && tr'[|tr'| - 1] == Apply(r, tr[|tr| - 1], c)
  {
    var s := tr[|tr| - 1];
    tr' := tr + [Apply(r, s, c)];
    assert Step(r, s, Apply(r, s, c));
  }

  lemma {:induction false} Laggard(r: Ring, g: nat, s: State, k: nat) returns (found: bool, c: nat)
    requires Fits(r) && 0 < g < |r.chunks| && !Separated(r, g) && Short(r, g, s) && k <= r.n
    ensures found ==> c < k && Position(r, s.pc[c]) < Position(r, Goal(r, g, c))
    ensures found ==> forall d :: 0 <= d < k && Position(r, s.pc[d]) < Position(r, Goal(r, g, d)) ==>
                        Position(r, s.pc[c]) <= Position(r, s.pc[d])
    ensures !found ==> forall d :: 0 <= d < k ==> Position(r, s.pc[d]) == Position(r, Goal(r, g, d))
    decreases k
  {
    found, c := false, 0;
    if k > 0 {
      found, c := Laggard(r, g, s, k - 1);
      var p := Position(r, s.pc[k - 1]);
      if p < Position(r, Goal(r, g, k - 1)) && (!found || p < Position(r, s.pc[c])) { found, c := true, k - 1; }
    }
  }

  lemma LaggardGoesOn(r: Ring, g: nat, s: State, c: nat)
    requires Fits(r) && 0 < g < |r.chunks| && !Separated(r, g) && Short(r, g, s) && c < r.n
    requires Position(r, s.pc[c]) < Position(r, Goal(r, g, c))
    requires forall d :: 0 <= d < r.n && Position(r, s.pc[d]) < Position(r, Goal(r, g, d)) ==>
               Position(r, s.pc[c]) <= Position(r, s.pc[d])
    ensures At(r, s, c) && Enabled(r, s, c)
  {
    BeforeGoal(r, g, c, s.pc[c]);
    assert CardOk(r, s, c);
    NeighbourReady(r, g, s, c, Prev(r.n, c));
    NeighbourReady(r, g, s, c, Next(r.n, c));
    BaseMono(r, 0, s.pc[c].g);
    ShakesMono(r, 0, s.pc[c].g);
  }

  /** A card short of its goal waits for nothing of chunk g. */
  lemma BeforeGoal(r: Ring, g: nat, c: nat, pc: Pc)
    requires Fits(r) && 0 < g < |r.chunks| && !Separated(r, g) && c < r.n && pc.g <= |r.chunks| && PcOk(r, pc)
    requires Position(r, pc) < Position(r, Goal(r, g, c))
    ensures pc.g < |r.chunks| && pc.g <= g && (pc.g == g ==> !pc.st.Await? && !pc.st.AwaitReady?)
  {
    if pc.g > g { StartMono(r, g + 1, pc.g); }
  }

  lemma NeighbourReady(r: Ring, g: nat, s: State, c: nat, d: nat)
    requires Fits(r) && 0 < g < |r.chunks| && !Separated(r, g) && Short(r, g, s) && c < r.n && d < r.n
    requires s.pc[c].g < |r.chunks| && s.pc[c].g <= g
      && (s.pc[c].g == g ==> !s.pc[c].st.Await? && !s.pc[c].st.AwaitReady?)
    requires Position(r, s.pc[d]) == Position(r, Goal(r, g, d)) || Position(r, s.pc[c]) <= Position(r, s.pc[d])
    ensures s.pc[c].st.Await? ==> Base(r, s.pc[c].g) + s.pc[c].st.t + 1 <= Sent(r, s.pc[d])
    ensures s.pc[c].st.AwaitReady? ==> Shakes(r, s.pc[c].g) + 1 <= Shook(r, s.pc[d])
  {
    if Position(r, s.pc[c]) <= Position(r, s.pc[d]) {
      BehindMeansReady(r, s.pc[c], s.pc[d]);
    } else {
      GoalOk(r, g, d);
      SamePosition(r, s.pc[d], Goal(r, g, d));
      if s.pc[c].g < g {
        BaseMono(r, s.pc[c].g + 1, g);
        ShakesMono(r, s.pc[c].g + 1, g);
      }
    }
  }

  lemma StaysShort(r: Ring, g: nat, s: State, c: nat)
    requires Fits(r) && 0 < g < |r.chunks| && !Separated(r, g) && Short(r, g, s) && At(r, s, c) && Enabled(r, s, c)
    requires Position(r, s.pc[c]) < Position(r, Goal(r, g, c))
    ensures Short(r, g, Apply(r, s, c))
  {
    ControlStep(r, s, c);
    GoalOk(r, g, c);
    NoneBetween(r, s.pc[c], Goal(r, g, c));
  }

  /** Advancing skips no place that a card can be at. */
  lemma NoneBetween(r: Ring, pc: Pc, q: Pc)
    requires 2 <= r.n && pc.g < |r.chunks| && PcOk(r, pc) && q.g <= |r.chunks| && PcOk(r, q)
    requires Position(r, pc) < Position(r, q)
    ensures Position(r, Advance(r, pc)) <= Position(r, q)
  {
    if q.g < pc.g {
      StartMono(r, q.g + 1, pc.g);
    } else if q.g > pc.g + 1 {
      StartMono(r, pc.g + 2, q.g);
    }
  }

  lemma SamePosition(r: Ring, pc: Pc, q: Pc)
    requires 2 <= r.n && pc.g <= |r.chunks| && PcOk(r, pc) && q.g <= |r.chunks| && PcOk(r, q)
    requires Position(r, pc) == Position(r, q)
    ensures pc == q
  {
    if q.g < pc.g {
      StartMono(r, q.g + 1, pc.g);
    } else if pc.g < q.g {
      StartMono(r, pc.g + 1, q.g);
    }
  }

  // ---- the caller's terms ------------------------------------------------------------------------

  /** The chunks of one call without handshake: the halves alternate from the first half on. */
  ghost predicate QuietCall(n: nat, cs: seq<Chunk>) {
    && cs != []
    && forall i :: 0 <= i < |cs| ==>
         cs[i].kind == AllReduce && ValidChunk(n, cs[i]) && !cs[i].opens && cs[i].half == i % 2
  }

  /** The chunks that tcclNicPublicWork cuts, without the handshake. */
  function Unopened(cs: seq<Chunk>): (quiet: seq<Chunk>)
    ensures |quiet| == |cs| && forall i :: 0 <= i < |cs| ==> quiet[i] == cs[i].(opens := false)
  {
    seq(|cs|, i requires 0 <= i < |cs| => cs[i].(opens := false))
  }

  /** They are a quiet call, with a chunk for every stride that begins inside the data. */
  lemma HostCallIsQuiet(n: nat, cut: Cut, first: nat)
    requires cut.stride > 0 && cut.pitch > 0 && Times(n, cut.pitch) <= HALF && first < cut.total
    ensures QuietCall(n, Unopened(AllReduceChunks(cut, first, 0)))
    ensures forall i: nat :: i < |AllReduceChunks(cut, first, 0)| <==> first + Times(i, cut.stride) < cut.total
  {
    var cs := AllReduceChunks(cut, first, 0);
    forall i: nat ensures i < |cs| <==> first + Times(i, cut.stride) < cut.total {
      HostChunk(n, cut, first, 0, i);
    }
    forall i: nat | i < |cs| ensures cs[i].kind == AllReduce && ValidChunk(n, cs[i]) && cs[i].half == i % 2 {
      HostChunk(n, cut, first, 0, i);
    }
  }

  lemma {:induction false} HostChunk(n: nat, cut: Cut, cnt: nat, k: nat, i: nat)
    requires cut.stride > 0 && cut.pitch > 0 && Times(n, cut.pitch) <= HALF
    ensures
      var cs := AllReduceChunks(cut, cnt, k);
      && (i < |cs| <==> cnt + Times(i, cut.stride) < cut.total)
      && (i < |cs| ==> cs[i].kind == AllReduce && ValidChunk(n, cs[i]) && cs[i].half == (k + i) % 2)
    decreases i
  {
    if cnt < cut.total && i > 0 {
      var cs := AllReduceChunks(cut, cnt, k);
      assert cs[1..] == AllReduceChunks(cut, cnt + cut.stride, k + 1);
      HostChunk(n, cut, cnt + cut.stride, k + 1, i - 1);
      assert i < |cs| ==> cs[i] == cs[1..][i - 1];
    }
  }

  /** All calls, one after the other. */
  function Concat(calls: seq<seq<Chunk>>): seq<Chunk> {
    if calls == [] then [] else Concat(calls[..|calls| - 1]) + calls[|calls| - 1]
  }

  ghost predicate EvenBefore(calls: seq<seq<Chunk>>, k: nat) {
    forall j :: 0 <= j < |calls| && j + 1 < k ==> |calls[j]| % 2 == 0
  }

  /** Without handshakes, consecutive calls are safe exactly when every call but the last is
      cut into an even number of chunks. */
  lemma QuietCallsExact(n: nat, calls: seq<seq<Chunk>>, nextcnt: nat, prevcnt: nat)
    requires 2 <= n && forall j :: 0 <= j < |calls| ==> QuietCall(n, calls[j])
    ensures NeverOverwrites(Ring(n, Concat(calls), nextcnt, prevcnt)) <==> EvenBefore(calls, |calls|)
  {
    ConcatFits(n, calls);
    var r := Ring(n, Concat(calls), nextcnt, prevcnt);
    assert Fits(r);
    HandshakeExact(r);
    ConcatSeparated(n, calls, nextcnt, prevcnt);
  }

  ghost predicate AllFit(n: nat, cs: seq<Chunk>) {
    forall i :: 0 <= i < |cs| ==> cs[i].kind == AllReduce && ValidChunk(n, cs[i])
  }

  lemma {:induction false} ConcatFits(n: nat, calls: seq<seq<Chunk>>)
    requires forall j :: 0 <= j < |calls| ==> QuietCall(n, calls[j])
    ensures AllFit(n, Concat(calls))
    decreases |calls|
  {
    if calls != [] {
      ConcatFits(n, calls[..|calls| - 1]);
      assert QuietCall(n, calls[|calls| - 1]);
    }
  }

  lemma {:induction false} ConcatSeparated(n: nat, calls: seq<seq<Chunk>>, nextcnt: nat, prevcnt: nat)
    requires forall j :: 0 <= j < |calls| ==> QuietCall(n, calls[j])
    ensures AllSeparated(Ring(n, Concat(calls), nextcnt, prevcnt)) <==> EvenBefore(calls, |calls|)
    ensures calls != [] ==> Ends(Concat(calls), calls[|calls| - 1])
    decreases |calls|
  {
    if calls != [] {
      var (before, last) := (calls[..|calls| - 1], calls[|calls| - 1]);
      ConcatSeparated(n, before, nextcnt, prevcnt);
      assert QuietCall(n, last);
      if before == [] {
        assert Concat(calls) == last;
        QuietIsSeparated(n, [], last, nextcnt, prevcnt);
      } else {
        QuietAfter(n, Concat(before), before[|before| - 1], last, nextcnt, prevcnt);
        EvenAgain(calls);
      }
    }
  }

  predicate Ends(cs: seq<Chunk>, last: seq<Chunk>) {
    last != [] && cs != [] && cs[|cs| - 1] == last[|last| - 1]
  }

  /** Chunks that end with one quiet call are separated from another exactly if that call has
      an even number of chunks. */
  lemma QuietAfter(n: nat, cs: seq<Chunk>, quiet: seq<Chunk>, last: seq<Chunk>, nextcnt: nat, prevcnt: nat)
    requires QuietCall(n, quiet) && QuietCall(n, last) && Ends(cs, quiet)
    ensures
      AllSeparated(Ring(n, cs + last, nextcnt, prevcnt)) <==>
      AllSeparated(Ring(n, cs, nextcnt, prevcnt)) && |quiet| % 2 == 0
    ensures Ends(cs + last, last)
  {
    QuietIsSeparated(n, cs, last, nextcnt, prevcnt);
  }

  lemma EvenAgain(calls: seq<seq<Chunk>>)
    requires |calls| >= 2
    ensures EvenBefore(calls, |calls|) <==>
            EvenBefore(calls[..|calls| - 1], |calls| - 1) && |calls[|calls| - 2]| % 2 == 0
  {
    var before := calls[..|calls| - 1];
    forall j | 0 <= j < |before| ensures before[j] == calls[j] { }
  }

  /** A quiet call after other chunks is separated from them if the last of them is in the
      second half. */
  lemma QuietIsSeparated(n: nat, cs: seq<Chunk>, last: seq<Chunk>, nextcnt: nat, prevcnt: nat)
    requires QuietCall(n, last)
    ensures
      AllSeparated(Ring(n, cs + last, nextcnt, prevcnt)) <==>
      AllSeparated(Ring(n, cs, nextcnt, prevcnt)) && (cs == [] || cs[|cs| - 1].half != 0)
  {
    var (r, q) := (Ring(n, cs + last, nextcnt, prevcnt), Ring(n, cs, nextcnt, prevcnt));
    forall g: nat | g < |cs| ensures Separated(r, g) <==> Separated(q, g) {
    }
    forall g: nat | |cs| < g < |r.chunks| ensures Separated(r, g) {
      assert r.chunks[g] == last[g - |cs|] && r.chunks[g - 1] == last[g - 1 - |cs|];
    }
    assert Separated(r, |cs|) <==> cs == [] || cs[|cs| - 1].half != 0 by { assert r.chunks[|cs|] == last[0]; }
  }
}
