/** Broadcast is a correct sliding window in every run: chunks arrive whole and in
    order, nothing is overwritten while it is needed, and no run deadlocks. */
module BroadcastTheorems {
  import opened Arith
  import opened Cycle
  import opened Memory
  import opened Terms
  import opened BroadcastChain
  import opened BroadcastMachine

  function At2(p: Chain, h: nat, j: nat): Region
    requires Valid(p) && h < |p.calls|
  {
    SlotsPositive(p.n, p.calls[h]);
    Range(p.calls[h], j)
  }

  /** What every card has to receive in step j of call h. */
  function Sent(p: Chain, h: nat, j: nat): Term
    requires h < |p.calls|
  {
    Leaf(p.calls[h].root, h, j)
  }

  /** A chunk that was pushed and is not acknowledged yet is intact. */
  ghost predicate Content(p: Chain, s: State, c: nat, h: nat, j: nat)
    requires Valid(p) && PcsOk(p, s) && c < p.n
  {
    var d := Next(p.n, c);
    h < |p.calls| && Active(p, c, h) && Past(p, s.pc[d], h, Ack) <= j < Past(p, s.pc[c], h, Push) ==>
      Get(s.out[d], At2(p, h, j)) == Sent(p, h, j)
  }

  ghost predicate Loaded(p: Chain, s: State, c: nat)
    requires Valid(p) && PcsOk(p, s) && c < p.n
  {
    var Pc(g, m, st) := s.pc[c];
    g < |p.calls| && c == p.calls[g].root && Rank(st) > 0 ==> Get(s.inb[c], At2(p, g, m)) == Sent(p, g, m)
  }

  /** The users of card c have every chunk that c has copied out. */
  ghost predicate Received(p: Chain, s: State, c: nat, h: nat, j: nat)
    requires Valid(p) && PcsOk(p, s) && c < p.n
  {
    h < |p.calls| && j < Past(p, s.pc[c], h, Copy) ==>
      (h, j) in s.user[c] && s.user[c][(h, j)] == Sent(p, h, j)
  }

  ghost predicate Inv(p: Chain, s: State)
    requires Valid(p)
  {
    && Control(p, s)
    && (forall c: nat, h: nat, j: nat :: c < p.n ==> Content(p, s, c, h, j))
    && (forall c :: 0 <= c < p.n ==> Loaded(p, s, c))
    && (forall c: nat, h: nat, j: nat :: c < p.n ==> Received(p, s, c, h, j))
  }

  // ---- preservation ----------------------------------------------------------------------

  function Source(p: Chain, s: State, c: nat): Mem
    requires Valid(p) && At(p, s, c)
  {
    if c == p.calls[s.pc[c].g].root then s.inb[c] else s.out[c]
  }

  lemma BufferEffects(p: Chain, s: State, c: nat)
    requires Valid(p) && At(p, s, c)
    ensures
      var (s', Pc(g, m, st)) := (Apply(p, s, c), s.pc[c]);
      var at := At2(p, g, m);
      && s'.out == (if st == Push && Active(p, c, g) then
                      s.out[Next(p.n, c) := Put(s.out[Next(p.n, c)], at, Get(Source(p, s, c), at))] else s.out)
      && s'.inb == (if st == Take && c == p.calls[g].root then
                      s.inb[c := Put(s.inb[c], at, Sent(p, g, m))] else s.inb)
      && s'.user == (if st == Copy then s.user[c := s.user[c][(g, m) := Get(Source(p, s, c), at)]] else s.user)
  {
  }

  /** What a card forwards and copies out is the chunk of the root. */
  lemma SourceIs(p: Chain, s: State, c: nat)
    requires Valid(p) && Inv(p, s) && At(p, s, c) && Rank(s.pc[c].st) > 0
    ensures
      var Pc(g, m, _) := s.pc[c];
      Get(Source(p, s, c), At2(p, g, m)) == Sent(p, g, m)
  {
    var Pc(g, m, st) := s.pc[c];
    if c == p.calls[g].root {
      assert Loaded(p, s, c);
    } else {
      var b := Prev(p.n, c);
      assert Next(p.n, b) == c && LinkOk(p, s, b, g) && Content(p, s, b, g, m);
    }
  }

  lemma ContentStep(p: Chain, s: State, c: nat, b: nat, h: nat, j: nat)
    requires Valid(p) && Inv(p, s) && At(p, s, c) && Enabled(p, s, c) && b < p.n && PcsOk(p, Apply(p, s, c))
    ensures Content(p, Apply(p, s, c), b, h, j)
  {
    if h < |p.calls| && Active(p, b, h) {
      assert Content(p, s, b, h, j);
      FlagEffects(p, s, c);
      BufferEffects(p, s, c);
      PastStep(p, s.pc[c], h, Ack);
      PastStep(p, s.pc[c], h, Push);
      if b == c && s.pc[c].st == Push && Active(p, c, s.pc[c].g) { PushKeeps(p, s, c, h, j); }
    }
  }

  /** A push leaves every chunk that is still needed in place. */
  lemma PushKeeps(p: Chain, s: State, c: nat, h: nat, j: nat)
    requires Valid(p) && Inv(p, s) && At(p, s, c) && Enabled(p, s, c) && PcsOk(p, Apply(p, s, c))
    requires h < |p.calls| && Active(p, c, h) && s.pc[c].st == Push && Active(p, c, s.pc[c].g)
    ensures Content(p, Apply(p, s, c), c, h, j)
  {
    var (Pc(g, m, _), d) := (s.pc[c], Next(p.n, c));
    assert CardOk(p, s, c) && LinkOk(p, s, c, g) && Content(p, s, c, h, j);
    SourceIs(p, s, c);
    FlagEffects(p, s, c);
    BufferEffects(p, s, c);
    PastStep(p, s.pc[c], h, Push);
    if h == g && Past(p, s.pc[d], g, Ack) <= j < m {
      SlotsPositive(p.n, p.calls[g]);
      RangesApart(p.n, p.calls[g], j, m);
      PutKeeps(s.out[d], At2(p, g, m), Sent(p, g, m), At2(p, g, j));
    }
  }

  lemma LoadedStep(p: Chain, s: State, c: nat, b: nat)
    requires Valid(p) && Inv(p, s) && At(p, s, c) && Enabled(p, s, c) && b < p.n && PcsOk(p, Apply(p, s, c))
    ensures Loaded(p, Apply(p, s, c), b)
  {
    assert Loaded(p, s, b);
    FlagEffects(p, s, c);
    BufferEffects(p, s, c);
  }

  lemma ReceivedStep(p: Chain, s: State, c: nat, b: nat, h: nat, j: nat)
    requires Valid(p) && Inv(p, s) && At(p, s, c) && Enabled(p, s, c) && b < p.n && PcsOk(p, Apply(p, s, c))
    ensures Received(p, Apply(p, s, c), b, h, j)
  {
    if h < |p.calls| {
      assert Received(p, s, b, h, j);
      FlagEffects(p, s, c);
      BufferEffects(p, s, c);
      PastStep(p, s.pc[c], h, Copy);
      if s.pc[c].st == Copy { SourceIs(p, s, c); }
    }
  }

  lemma StepInv(p: Chain, s: State, c: nat)
    requires Valid(p) && Inv(p, s) && At(p, s, c) && Enabled(p, s, c)
    ensures Inv(p, Apply(p, s, c))
  {
    var s' := Apply(p, s, c);
    ControlStep(p, s, c);
    forall b: nat, h: nat, j: nat | b < p.n ensures Content(p, s', b, h, j) { ContentStep(p, s, c, b, h, j); }
    forall b | 0 <= b < p.n ensures Loaded(p, s', b) { LoadedStep(p, s, c, b); }
    forall b: nat, h: nat, j: nat | b < p.n ensures Received(p, s', b, h, j) { ReceivedStep(p, s, c, b, h, j); }
  }

  // ---- whole runs --------------------------------------------------------------------------

  ghost predicate Step(p: Chain, s: State, s': State)
    requires Valid(p)
  {
    exists c: nat :: At(p, s, c) && Enabled(p, s, c) && s' == Apply(p, s, c)
  }

  ghost predicate Run(p: Chain, tr: seq<State>)
    requires Valid(p)
  {
    && tr != [] && Init(p, tr[0])
    && (forall i :: 0 <= i < |tr| ==> Shape(p, tr[i]))
    && forall i :: 0 < i < |tr| ==> Step(p, tr[i - 1], tr[i])
  }

  lemma InitInv(p: Chain, s: State)
    requires Valid(p) && Init(p, s)
    ensures Inv(p, s)
  {
    InitControl(p, s);
    assert forall c :: 0 <= c < p.n ==> s.pc[c] == Pc(0, 0, SetReady);
  }

  lemma {:induction false} RunInv(p: Chain, tr: seq<State>)
    requires Valid(p) && Run(p, tr)
    ensures Inv(p, tr[|tr| - 1])
    decreases |tr|
  {
    if |tr| == 1 {
      InitInv(p, tr[0]);
    } else {
      var s := tr[|tr| - 2];
      assert tr[..|tr| - 1][|tr| - 2] == s;
      RunInv(p, tr[..|tr| - 1]);
      assert Step(p, s, tr[|tr| - 1]);
      var c: nat :| At(p, s, c) && Enabled(p, s, c) && tr[|tr| - 1] == Apply(p, s, c);
      StepInv(p, s, c);
    }
  }

  /** Every card has every chunk of the calls it has left, and of its present call all
      chunks before its present step: whole, unaltered and in order. */
  lemma BroadcastDelivers(p: Chain, tr: seq<State>, c: nat, h: nat, j: nat)
    requires Valid(p) && Run(p, tr) && c < p.n && h < |p.calls| && j < Steps(p.calls[h])
    requires
      var pc := tr[|tr| - 1].pc[c];
      h < pc.g || (h == pc.g && (j < pc.m || (j == pc.m && pc.st == Ack)))
    ensures
      var user := tr[|tr| - 1].user[c];
      (h, j) in user && user[(h, j)] == Leaf(p.calls[h].root, h, j)
  {
    var s := tr[|tr| - 1];
    RunInv(p, tr);
    assert PcOk(p, s.pc[c]) && Received(p, s, c, h, j);
  }

  /** The wait for an acknowledgement ends exactly when the slot's last use, one round of
      slots before, has been acknowledged; it cannot be missed. */
  lemma AckIsExact(p: Chain, tr: seq<State>, c: nat)
    requires Valid(p) && Run(p, tr) && At(p, tr[|tr| - 1], c) && OpAt(p, tr[|tr| - 1].pc[c], c).WaitEq?
    ensures
      var s := tr[|tr| - 1];
      var (Pc(g, m, _), d) := (s.pc[c], Next(p.n, c));
      && Slots(p.calls[g]) <= m
      && (Enabled(p, s, c) <==> Past(p, s.pc[d], g, Ack) > m - Slots(p.calls[g]))
  {
    RunInv(p, tr);
    AckWaitExact(p, tr[|tr| - 1], c);
  }

  /** While a push is in flight, its receiver forwards and copies out of other bytes. */
  lemma RaceFree(p: Chain, tr: seq<State>, c: nat)
    requires Valid(p) && Run(p, tr) && At(p, tr[|tr| - 1], c)
    requires tr[|tr| - 1].pc[c].st == Push && Active(p, c, tr[|tr| - 1].pc[c].g)
    requires
      var s := tr[|tr| - 1];
      var d := Next(p.n, c);
      At(p, s, d) && (s.pc[d].st == Push || s.pc[d].st == Copy) && d != p.calls[s.pc[d].g].root
    ensures
      var s := tr[|tr| - 1];
      var (pc, pd) := (s.pc[c], s.pc[Next(p.n, c)]);
      !Overlap(At2(p, pc.g, pc.m), At2(p, pd.g, pd.m))
  {
    var s := tr[|tr| - 1];
    RunInv(p, tr);
    var (Pc(g, m, _), Pc(h, j, _)) := (s.pc[c], s.pc[Next(p.n, c)]);
    assert CardOk(p, s, c) && LinkOk(p, s, c, g) && LinkOk(p, s, c, h);
    SlotsPositive(p.n, p.calls[g]);
    RangesApart(p.n, p.calls[g], j, m);
  }

  // ---- progress ------------------------------------------------------------------------------

  function Start(p: Chain, g: nat): nat
    requires Valid(p) && g <= |p.calls|
  {
    if g == 0 then 0 else Start(p, g - 1) + 6 * StepsOf(p, g - 1) + 2
  }

  /** How far a card is in its whole program. */
  function Position(p: Chain, pc: Pc): nat
    requires Valid(p) && pc.g <= |p.calls|
  {
    Start(p, pc.g) + if pc.g == |p.calls| || pc.st == SetReady then 0 else if pc.st == AwaitReady then 1
      else 2 + 6 * pc.m + Rank(pc.st)
  }

  lemma {:induction false} StartMono(p: Chain, g: nat, h: nat)
    requires Valid(p) && g <= h <= |p.calls|
    ensures Start(p, g) <= Start(p, h)
    decreases h
  {
    if g < h { StartMono(p, g, h - 1); }
  }

  lemma PositionGrows(p: Chain, pc: Pc)
    requires Valid(p) && pc.g < |p.calls| && PcOk(p, pc)
    ensures Position(p, Advance(p, pc)) == Position(p, pc) + 1
  {
  }

  lemma PositionBound(p: Chain, pc: Pc)
    requires Valid(p) && pc.g <= |p.calls| && PcOk(p, pc)
    ensures Position(p, pc) <= Start(p, |p.calls|)
    ensures pc.g < |p.calls| ==> Position(p, pc) < Start(p, pc.g + 1) <= Start(p, |p.calls|)
  {
    StartMono(p, if pc.g < |p.calls| then pc.g + 1 else pc.g, |p.calls|);
  }

  /** Being no further means having executed no stage more often. */
  lemma BehindMeans(p: Chain, pc: Pc, other: Pc)
    requires Valid(p) && pc.g < |p.calls| && PcOk(p, pc) && other.g <= |p.calls| && PcOk(p, other)
    requires Position(p, pc) <= Position(p, other)
    ensures pc.g <= other.g
    ensures pc.g == other.g && !Opening(pc.st)
      ==> !Opening(other.st) && (pc.m < other.m || (pc.m == other.m && Rank(pc.st) <= Rank(other.st)))
    ensures pc.g == other.g && pc.st == AwaitReady ==> other.st != SetReady
  {
    PositionBound(p, other);
    if other.g < pc.g { StartMono(p, other.g + 1, pc.g); }
  }

  ghost predicate CanStep(p: Chain, s: State, c: nat)
    requires Valid(p)
  {
    At(p, s, c) && Enabled(p, s, c)
  }

  ghost predicate SomeoneCanStep(p: Chain, s: State)
    requires Valid(p)
  {
    exists c: nat :: CanStep(p, s, c)
  }

  ghost predicate Least(p: Chain, s: State, c: nat)
    requires Valid(p) && PcsOk(p, s) && c < p.n
  {
    forall d :: 0 <= d < p.n ==> Position(p, s.pc[c]) <= Position(p, s.pc[d])
  }

  lemma {:induction false} Last(p: Chain, s: State, k: nat) returns (c: nat)
    requires Valid(p) && PcsOk(p, s) && 0 < k <= p.n
    ensures c < k && forall d :: 0 <= d < k ==> Position(p, s.pc[c]) <= Position(p, s.pc[d])
    decreases k
  {
    if k == 1 {
      c := 0;
    } else {
      c := Last(p, s, k - 1);
      if Position(p, s.pc[k - 1]) < Position(p, s.pc[c]) { c := k - 1; }
    }
  }

  /** Cards between the root and card c. */
  function Distance(n: nat, root: nat, c: nat): nat
    requires root < n && c < n
  {
    if root <= c then c - root else c + n - root
  }

  /** A least advanced card can go on, or else one nearer to the root can. */
  lemma {:induction false} LeastGoesOn(p: Chain, s: State, c: nat)
    requires Valid(p) && Control(p, s) && At(p, s, c) && Least(p, s, c)
    ensures SomeoneCanStep(p, s)
    decreases Distance(p.n, p.calls[s.pc[c].g].root, c)
  {
    var Pc(g, m, st) := s.pc[c];
    var (b, d) := (Prev(p.n, c), Next(p.n, c));
    if st == Take && c != p.calls[g].root {
      BehindMeans(p, s.pc[c], s.pc[b]);
      DataWaitExact(p, s, c);
      if Past(p, s.pc[b], g, Flag) > m {
        assert CanStep(p, s, c);
      } else if s.pc[b].st == Take {
        LeastGoesOn(p, s, b);
      } else {
        UpstreamGoesOn(p, s, b);
      }
    } else {
      NotTakeGoesOn(p, s, c);
    }
  }

  /** Card b is on its way to the push for which a least advanced card waits. */
  lemma UpstreamGoesOn(p: Chain, s: State, b: nat)
    requires Valid(p) && Control(p, s) && At(p, s, b) && Least(p, s, Next(p.n, b))
    requires s.pc[Next(p.n, b)] == Pc(s.pc[b].g, s.pc[b].m, Take) && 0 < Rank(s.pc[b].st) <= 3
    ensures SomeoneCanStep(p, s)
  {
    if OpAt(p, s.pc[b], b).WaitEq? {
      AckWaitExact(p, s, b);
      SlotsPositive(p.n, p.calls[s.pc[b].g]);
    }
    assert CanStep(p, s, b);
  }

  lemma NotTakeGoesOn(p: Chain, s: State, c: nat)
    requires Valid(p) && Control(p, s) && At(p, s, c) && Least(p, s, c)
    requires s.pc[c].st != Take || c == p.calls[s.pc[c].g].root
    ensures SomeoneCanStep(p, s)
  {
    var d := Next(p.n, c);
    BehindMeans(p, s.pc[c], s.pc[d]);
    assert CardOk(p, s, c);
    if OpAt(p, s.pc[c], c).WaitEq? {
      AckWaitExact(p, s, c);
      SlotsPositive(p.n, p.calls[s.pc[c].g]);
    }
    assert CanStep(p, s, c);
  }

  /** As long as some card is not finished, some card can take a step. */
  lemma BroadcastNeverDeadlocks(p: Chain, tr: seq<State>, d: nat)
    requires Valid(p) && Run(p, tr) && d < p.n && tr[|tr| - 1].pc[d].g < |p.calls|
    ensures SomeoneCanStep(p, tr[|tr| - 1])
  {
    var s := tr[|tr| - 1];
    RunInv(p, tr);
    var c := Last(p, s, p.n);
    assert Least(p, s, c);
    PositionBound(p, s.pc[d]);
    LeastGoesOn(p, s, c);
  }

  function Total(p: Chain, s: State, k: nat): nat
    requires Valid(p) && PcsOk(p, s) && k <= p.n
  {
    if k == 0 then 0 else Total(p, s, k - 1) + Position(p, s.pc[k - 1])
  }

  lemma {:induction false} TotalGrows(p: Chain, s: State, s': State, c: nat, k: nat)
    requires Valid(p) && PcsOk(p, s) && PcsOk(p, s') && At(p, s, c) && k <= p.n
    requires s'.pc == s.pc[c := Advance(p, s.pc[c])]
    ensures Total(p, s', k) == Total(p, s, k) + if c < k then 1 else 0
    decreases k
  {
    PositionGrows(p, s.pc[c]);
    if k > 0 { TotalGrows(p, s, s', c, k - 1); }
  }

  lemma {:induction false} TotalBound(p: Chain, s: State, k: nat)
    requires Valid(p) && PcsOk(p, s) && k <= p.n
    ensures Total(p, s, k) <= Times(k, Start(p, |p.calls|))
    decreases k
  {
    if k > 0 {
      TotalBound(p, s, k - 1);
      PositionBound(p, s.pc[k - 1]);
    }
  }

  lemma {:induction false} RunTotal(p: Chain, tr: seq<State>)
    requires Valid(p) && Run(p, tr)
    ensures Inv(p, tr[|tr| - 1]) && |tr| <= 1 + Total(p, tr[|tr| - 1], p.n)
    decreases |tr|
  {
    RunInv(p, tr);
    if |tr| > 1 {
      var before := tr[..|tr| - 1];
      RunTotal(p, before);
      var (s, s') := (before[|tr| - 2], tr[|tr| - 1]);
      assert Step(p, tr[|tr| - 2], tr[|tr| - 1]);
      var c: nat :| At(p, s, c) && Enabled(p, s, c) && s' == Apply(p, s, c);
      FlagEffects(p, s, c);
      TotalGrows(p, s, s', c, p.n);
    }
  }

  /** Runs are bounded, so a run that cannot be extended has finished everywhere. */
  lemma BroadcastTerminates(p: Chain, tr: seq<State>)
    requires Valid(p) && Run(p, tr)
    ensures |tr| <= 1 + Times(p.n, Start(p, |p.calls|))
  {
    RunTotal(p, tr);
    TotalBound(p, tr[|tr| - 1], p.n);
  }
}
