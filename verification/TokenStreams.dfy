/** The operations by which the ranks of a card take turns, on the streams that the host code
    leaves: executing them has the effect that SplitToken's stages have on the split flag, and
    a call's stream has them in the order of those stages. */
module TokenStreams {
  import opened Arith
  import opened Cycle
  import opened SplitToken
  import H = RingHost
  import S = RingSchedule
  import RC = ReduceChain
  import RR = RingResults
  import Memory

  datatype Token = WaitFor(value: nat) | SetTo(value: nat) | Barrier

  // ---- what the operations do ----------------------------------------------------------------

  /** The split flag of a call after some operations. */
  function ExecTokens(flag: nat, ts: seq<Token>): nat
    decreases |ts|
  {
    if ts == [] then flag else ExecTokens(if ts[0].SetTo? then ts[0].value else flag, ts[1..])
  }

  predicate Goes(flag: nat, t: Token) {
    t.WaitFor? ==> flag == t.value
  }

  /** What rank r does about the turns at a stage. */
  function StageTokens(p: Card, r: nat, pc: Pc): seq<Token>
    requires Valid(p) && pc.g < |p.calls|
  {
    match pc.st
    case Reset => if Splits(p, pc.g) && r == 0 then [SetTo(0)] else []
    case Wait(_) => if Splits(p, pc.g) then [WaitFor(r)] else []
    case Reduce(_) => []
    case Pass(_) => if Splits(p, pc.g) && r < p.ranks then [SetTo(Next(p.ranks, r))] else []
    case Meet => [Barrier]
    case Clear => if Splits(p, pc.g) && r == 0 then [SetTo(0)] else []
  }

  /** The operations of a stage have the effect of the stage, and hold the rank up as it does;
      the meeting of all ranks is the card barrier. */
  lemma StageIsTokens(p: Card, s: State, r: nat)
    requires At(p, s, r)
    ensures
      var (g, ts, s') := (s.pc[r].g, StageTokens(p, r, s.pc[r]), Apply(p, s, r));
      && s'.flag == Set(s.flag, Slot(g), ExecTokens(s.flag[Slot(g)], ts))
      && (s.pc[r].st != Meet ==>
            (Enabled(p, s, r) <==> forall i :: 0 <= i < |ts| ==> Goes(s.flag[Slot(g)], ts[i])))
  {
    var ts := StageTokens(p, r, s.pc[r]);
    if ts != [] { assert Goes(s.flag[Slot(s.pc[r].g)], ts[0]) || !Enabled(p, s, r); }
  }

  // ---- the order of the operations -------------------------------------------------------------

  function Left(p: Card, r: nat, pc: Pc): nat
    requires Valid(p) && pc.g < |p.calls| && PcOk(p, r, pc)
  {
    match pc.st
    case Reset => 3 * Passes(p, pc.g, r) + 3
    case Wait(i) => 3 * (Passes(p, pc.g, r) - i) + 2
    case Reduce(i) => 3 * (Passes(p, pc.g, r) - i) + 1
    case Pass(i) => 3 * (Passes(p, pc.g, r) - i)
    case Meet => 2
    case Clear => 1
  }

  /** What is left of a call for a rank at `pc`, stage by stage. */
  function RestTokens(p: Card, r: nat, pc: Pc): seq<Token>
    requires Valid(p) && pc.g < |p.calls| && PcOk(p, r, pc)
    decreases Left(p, r, pc)
  {
    if pc.st == Clear then StageTokens(p, r, pc)
    else StageTokens(p, r, pc) + RestTokens(p, r, Advance(p, r, pc))
  }

  /** k turns of rank r. */
  function Turns(split: bool, ranks: nat, r: nat, k: nat): seq<Token>
    requires r < ranks
  {
    if k == 0 || !split then [] else [WaitFor(r), SetTo(Next(ranks, r))] + Turns(split, ranks, r, k - 1)
  }

  function Ends(split: bool, r: nat): seq<Token> {
    if split && r == 0 then [SetTo(0)] else []
  }

  lemma {:induction false} TurnsLeft(p: Card, g: nat, r: nat, i: nat)
    requires Valid(p) && g < |p.calls| && r < p.ranks && i <= Passes(p, g, r)
    ensures RestTokens(p, r, Pc(g, TurnFrom(p, g, r, i))) ==
            Turns(Splits(p, g), p.ranks, r, Passes(p, g, r) - i) + [Barrier] + Ends(Splits(p, g), r)
    decreases Passes(p, g, r) - i
  {
    if i < Passes(p, g, r) {
      TurnsLeft(p, g, r, i + 1);
      OneTurn(p, g, r, i);
    }
  }

  lemma OneTurn(p: Card, g: nat, r: nat, i: nat)
    requires Valid(p) && g < |p.calls| && r < p.ranks && i < Passes(p, g, r)
    ensures RestTokens(p, r, Pc(g, Wait(i))) ==
            (if Splits(p, g) then [WaitFor(r), SetTo(Next(p.ranks, r))] else [])
            + RestTokens(p, r, Pc(g, TurnFrom(p, g, r, i + 1)))
  {
    var rest := RestTokens(p, r, Pc(g, TurnFrom(p, g, r, i + 1)));
    assert RestTokens(p, r, Pc(g, Pass(i))) == StageTokens(p, r, Pc(g, Pass(i))) + rest;
    assert RestTokens(p, r, Pc(g, Reduce(i))) == [] + RestTokens(p, r, Pc(g, Pass(i)));
  }

  /** A whole call. */
  lemma CallIsTurns(p: Card, g: nat, r: nat, k: nat)
    requires Valid(p) && g < |p.calls| && r < p.ranks && k == Passes(p, g, r)
    ensures
      var split := Splits(p, g);
      RestTokens(p, r, Pc(g, Reset)) ==
      Ends(split, r) + (Turns(split, p.ranks, r, k) + [Barrier] + Ends(split, r))
  {
    TurnsLeft(p, g, r, 0);
  }

  predicate Below(i: nat, a: nat) {
    i < a
  }

  lemma SameNumber(a: nat, b: nat)
    requires forall i: nat :: Below(i, a) <==> Below(i, b)
    ensures a == b
  {
    assert Below(a, a) <==> Below(a, b);
    assert Below(b, a) <==> Below(b, b);
  }

  // ---- the ring collectives -------------------------------------------------------------------

  function OfRing(op: H.Op): seq<Token> {
    match op
    case WaitToken(v) => [WaitFor(v)]
    case SetToken(v) => [SetTo(v)]
    case CardBarrier => [Barrier]
    case _ => []
  }

  /** The operations of a stream that concern the turns. */
  function Tokens(ops: seq<H.Op>): seq<Token> {
    if ops == [] then [] else OfRing(ops[0]) + Tokens(ops[1..])
  }

  lemma {:induction false} TokensAppend(a: seq<H.Op>, b: seq<H.Op>)
    ensures Tokens(a + b) == Tokens(a) + Tokens(b)
    decreases |a|
  {
    if a == [] { assert a + b == b; } else {
      assert (a + b)[1..] == a[1..] + b;
      TokensAppend(a[1..], b);
    }
  }

  lemma {:induction false} NoTokens(ops: seq<H.Op>)
    requires forall i :: 0 <= i < |ops| ==> OfRing(ops[i]) == []
    ensures Tokens(ops) == []
    decreases |ops|
  {
    if ops != [] { NoTokens(ops[1..]); }
  }

  /** One send of a chunk. */
  function OneSend(n: nat, col: H.Column, c: nat, cnt: nat, ch: S.Chunk, t: nat): seq<H.Op>
    requires 2 <= n && c < n && H.ColumnOk(n, col) && t < 2 * n
  {
    H.PushOps(n, c, ch, t) + [H.SendFlag(0, Next(n, c), cnt + t + 1), H.WaitGeq(0, cnt + t + 1)]
    + H.FoldOps(n, col, c, ch, t)
  }

  lemma OneSendHasNone(n: nat, col: H.Column, c: nat, cnt: nat, ch: S.Chunk, t: nat)
    requires 2 <= n && c < n && H.ColumnOk(n, col) && t < 2 * n
    ensures Tokens(OneSend(n, col, c, cnt, ch, t)) == []
  {
    NoTokens(OneSend(n, col, c, cnt, ch, t));
  }

  lemma NextSend(n: nat, col: H.Column, c: nat, cnt: nat, ch: S.Chunk, t: nat, rest: seq<H.Op>)
    requires 2 <= n && c < n && H.ColumnOk(n, col) && t < S.Sends(n, ch.kind)
    requires rest == H.SendsFrom(n, col, c, cnt, ch, t + 1)
    ensures H.SendsFrom(n, col, c, cnt, ch, t) == OneSend(n, col, c, cnt, ch, t) + rest
  {
  }

  lemma {:induction false} SendsHaveNone(n: nat, col: H.Column, c: nat, cnt: nat, ch: S.Chunk, t: nat,
      sends: seq<H.Op>)
    requires 2 <= n && c < n && H.ColumnOk(n, col) && t <= S.Sends(n, ch.kind)
    requires sends == H.SendsFrom(n, col, c, cnt, ch, t)
    ensures Tokens(sends) == []
    decreases S.Sends(n, ch.kind) - t
  {
    if t < S.Sends(n, ch.kind) {
      var rest := H.SendsFrom(n, col, c, cnt, ch, t + 1);
      NextSend(n, col, c, cnt, ch, t, rest);
      OneSendHasNone(n, col, c, cnt, ch, t);
      SendsHaveNone(n, col, c, cnt, ch, t + 1, rest);
      TokensAppend(OneSend(n, col, c, cnt, ch, t), rest);
    }
  }

  lemma TurnTokens(col: H.Column, ops: seq<H.Op>)
    requires col.rankId < col.rankNum && forall i :: 0 <= i < |ops| ==> OfRing(ops[i]) == []
    ensures Tokens(H.TakeTurn(col, ops)) == Turns(col.split, col.rankNum, col.rankId, 1)
  {
    NoTokens(ops);
    if col.split {
      var (wait, pass) := (H.WaitToken(col.rankId), H.SetToken(Next(col.rankNum, col.rankId)));
      TokensAppend([wait] + ops, [pass]);
      TokensAppend([wait], ops);
      assert Tokens([wait]) == [WaitFor(col.rankId)] && Tokens([pass]) == [SetTo(pass.value)];
      assert Turns(true, col.rankNum, col.rankId, 0) == [];
    } else {
      assert H.TakeTurn(col, ops) == ops;
    }
  }

  /** A card with one rank has nobody to take turns with in an AllReduce. */
  predicate Shares(col: H.Column, ch: S.Chunk) {
    ch.kind == S.AllReduce ==> col.rankNum != 1
  }

  lemma ChunkTokens(n: nat, col: H.Column, c: nat, cnt: nat, ch: S.Chunk)
    requires 2 <= n && c < n && H.ColumnOk(n, col) && Shares(col, ch)
    ensures Tokens(H.ChunkOps(n, col, c, cnt, ch)) == Turns(col.split, col.rankNum, col.rankId, 1)
  {
    var (load, sends, copy) := (H.LoadOps(n, col, c, ch), H.SendsFrom(n, col, c, cnt, ch, 0), H.CopyOps(n, c, ch));
    SendsHaveNone(n, col, c, cnt, ch, 0, sends);
    NoTokens(copy);
    TokensAppend(load + sends, copy);
    TokensAppend(load, sends);
    LoadTokens(n, col, c, ch);
  }

  lemma LoadTokens(n: nat, col: H.Column, c: nat, ch: S.Chunk)
    requires 2 <= n && c < n && H.ColumnOk(n, col) && Shares(col, ch)
    ensures Tokens(H.LoadOps(n, col, c, ch)) == Turns(col.split, col.rankNum, col.rankId, 1)
  {
    var ops := match ch.kind
      case AllReduce => [H.ReduceLocal(ch.user, ch.bytes, S.HalfBase(ch.half))]
      case AllGather =>
        [H.MoveOut(ch.user, S.Range(n, ch, c)),
         H.OwnToUsers(ch.user, ch.bytes, ch.user + Times(col.rankOf[c], col.dataSize))]
      case ReduceScatter => [H.ReduceForCards(ch.user, ch.bytes, S.HalfBase(ch.half), ch.pitch)];
    TurnTokens(col, ops);
  }

  lemma HeadTokens(head: seq<H.Op>, rest: seq<H.Op>, split: bool, ranks: nat, r: nat, k: nat)
    requires r < ranks && Tokens(head) == Turns(split, ranks, r, 1) && Tokens(rest) == Turns(split, ranks, r, k)
    ensures Tokens(head + rest) == Turns(split, ranks, r, k + 1)
  {
    TokensAppend(head, rest);
    assert Turns(split, ranks, r, 0) == [];
  }

  lemma CallHead(n: nat, col: H.Column, c: nat, cnt: nat, cs: seq<S.Chunk>, rest: seq<H.Op>)
    requires 2 <= n && c < n && H.ColumnOk(n, col) && cs != []
    requires rest == H.CallOps(n, col, c, cnt + S.Sends(n, cs[0].kind), cs[1..])
    ensures H.CallOps(n, col, c, cnt, cs) == H.ChunkOps(n, col, c, cnt, cs[0]) + rest
  {
  }

  lemma {:induction false} CallTokens(n: nat, col: H.Column, c: nat, cnt: nat, cs: seq<S.Chunk>, ops: seq<H.Op>)
    requires 2 <= n && c < n && H.ColumnOk(n, col) && forall ch :: ch in cs ==> Shares(col, ch)
    requires ops == H.CallOps(n, col, c, cnt, cs)
    ensures Tokens(ops) == Turns(col.split, col.rankNum, col.rankId, |cs|)
    decreases |cs|
  {
    if cs != [] {
      var later := cnt + S.Sends(n, cs[0].kind);
      var rest := H.CallOps(n, col, c, later, cs[1..]);
      CallHead(n, col, c, cnt, cs, rest);
      ChunkTokens(n, col, c, cnt, cs[0]);
      CallTokens(n, col, c, later, cs[1..], rest);
      HeadTokens(H.ChunkOps(n, col, c, cnt, cs[0]), rest, col.split, col.rankNum, col.rankId, |cs| - 1);
    }
  }

  /** A whole stream, between the writes of the token. */
  lemma StreamTokens(ops: seq<H.Op>, end: seq<H.Op>, reset: seq<H.Op>, last: seq<H.Op>)
    requires end == [H.CardBarrier]
    ensures Tokens(reset + ops + end + last) == Tokens(reset) + (Tokens(ops) + [Barrier] + Tokens(last))
  {
    TokensAppend(reset + ops + end, last);
    TokensAppend(reset + ops, end);
    TokensAppend(reset, ops);
    EndToken(end);
    Regroup(Tokens(reset), Tokens(ops), [Barrier], Tokens(last));
  }

  lemma EndToken(end: seq<H.Op>)
    requires end == [H.CardBarrier]
    ensures Tokens(end) == [Barrier]
  {
  }

  lemma Regroup(a: seq<Token>, b: seq<Token>, c: seq<Token>, d: seq<Token>)
    ensures ((a + b) + c) + d == a + (b + c + d)
  {
  }

  lemma NicBelow(cut: H.Cut, ranks: nat, r: nat, first: nat, i: nat)
    requires r < ranks && cut.chunk > 0 && cut.stride > 0
    requires first + Times(i, cut.stride) == Times(r + Times(i, ranks), cut.chunk)
    ensures Below(i, |H.AllReduceChunks(cut, first, 0)|) <==>
            Below(i, PassesFrom(ranks, ChunkCount(cut.total, cut.chunk), r))
  {
    RR.ChunkAt(cut, first, 0, i);
    PassesFromIs(ranks, ChunkCount(cut.total, cut.chunk), r, i);
    ChunkCountIs(cut.total, cut.chunk, r + Times(i, ranks));
  }

  /** The chunks of rank r are its passes, and the calls that split are those with turns. */
  lemma NicTurns(p: Card, g: nat, r: nat, cut: H.Cut)
    requires Valid(p) && g < |p.calls| && r < p.ranks
    requires cut.chunk > 0 && cut.stride == p.ranks * cut.chunk > 0 && p.calls[g] == ChunkCount(cut.total, cut.chunk)
    ensures |H.AllReduceChunks(cut, r * cut.chunk, 0)| == Passes(p, g, r)
    ensures cut.stride < cut.total <==> Splits(p, g)
  {
    var first := r * cut.chunk;
    var (a, b) := (|H.AllReduceChunks(cut, first, 0)|, Passes(p, g, r));
    forall i: nat ensures Below(i, a) <==> Below(i, b) {
      RR.StartOf(i, p.ranks, r, cut.chunk);
      NicBelow(cut, p.ranks, r, first, i);
    }
    SameNumber(a, b);
    ChunkCountIs(cut.total, cut.chunk, p.ranks);
    TimesIs(p.ranks, cut.chunk);
  }

  lemma {:induction false} NicKinds(cut: H.Cut, cnt: nat, k: nat)
    requires cut.stride > 0
    ensures forall ch :: ch in H.AllReduceChunks(cut, cnt, k) ==> ch.kind == S.AllReduce
    decreases cut.total - cnt
  {
    if cnt < cut.total { NicKinds(cut, cnt + cut.stride, k + 1); }
  }

  /** What an AllReduce of rank r leaves on its stream about the turns is SplitToken's program
      of the rank for the call. */
  lemma NicTakesTurns(p: Card, g: nat, r: nat, n: nat, c: nat, cnt: nat, cut: H.Cut)
    requires Valid(p) && g < |p.calls| && r < p.ranks && p.ranks != 1 && 2 <= n && c < n
    requires cut.chunk > 0 && cut.stride == p.ranks * cut.chunk > 0 && p.calls[g] == ChunkCount(cut.total, cut.chunk)
    ensures
      var col := H.Column(r, p.ranks, cut.stride < cut.total, seq(n, _ => 0), 0);
      var cs := H.AllReduceChunks(cut, r * cut.chunk, 0);
      var reset := if col.split && r == 0 then [H.SetToken(0)] else [];
      Tokens(reset + H.CallOps(n, col, c, cnt, cs) + [H.CardBarrier] + reset) == RestTokens(p, r, Pc(g, Reset))
  {
    var col := H.Column(r, p.ranks, cut.stride < cut.total, seq(n, _ => 0), 0);
    var cs := H.AllReduceChunks(cut, r * cut.chunk, 0);
    var reset := if col.split && r == 0 then [H.SetToken(0)] else [];
    NicTurns(p, g, r, cut);
    NicKinds(cut, r * cut.chunk, 0);
    CallTokens(n, col, c, cnt, cs, H.CallOps(n, col, c, cnt, cs));
    StreamTokens(H.CallOps(n, col, c, cnt, cs), [H.CardBarrier], reset, reset);
    CallIsTurns(p, g, r, |cs|);
    assert Tokens(reset) == Ends(col.split, r);
  }

  lemma {:induction false} SliceChunksAre(kind: S.Kind, size: nat, slice: nat, stepNo: nat, k: nat, steps: nat)
    requires k <= steps
    ensures
      var cs := H.SliceChunks(kind, size, slice, stepNo, k, steps);
      |cs| == steps - k && forall i :: 0 <= i < |cs| ==> cs[i].kind == kind
    decreases steps - k
  {
    if k < steps { SliceChunksAre(kind, size, slice, stepNo, k + 1, steps); }
  }

  lemma {:induction false} EqualPasses(ranks: nat, steps: nat, r: nat)
    requires r < ranks
    ensures PassesFrom(ranks, Times(steps, ranks), r) == steps
  {
    var b := PassesFrom(ranks, Times(steps, ranks), r);
    forall i: nat ensures Below(i, b) <==> Below(i, steps) {
      PassesFromIs(ranks, Times(steps, ranks), r, i);
      if i < steps { TimesStep(i, steps, ranks); } else { TimesAdds(steps, i - steps, ranks); }
    }
    SameNumber(b, steps);
  }

  lemma SlicedTokens(n: nat, col: H.Column, c: nat, cnt: nat, kind: S.Kind, size: nat, slice: nat, stepNo: nat,
      steps: nat, reset: seq<H.Op>)
    requires 2 <= n && c < n && H.ColumnOk(n, col) && kind != S.AllReduce
    ensures
      var cs := H.SliceChunks(kind, size, slice, stepNo, 0, steps);
      Tokens(reset + H.CallOps(n, col, c, cnt, cs) + [H.CardBarrier]) ==
      Tokens(reset) + (Turns(col.split, col.rankNum, col.rankId, steps) + [Barrier])
  {
    var cs := H.SliceChunks(kind, size, slice, stepNo, 0, steps);
    SliceChunksAre(kind, size, slice, stepNo, 0, steps);
    CallTokens(n, col, c, cnt, cs, H.CallOps(n, col, c, cnt, cs));
    var (ops, end) := (H.CallOps(n, col, c, cnt, cs), [H.CardBarrier]);
    StreamTokens(ops, end, reset, []);
    assert reset + ops + end + [] == reset + ops + end;
  }

  /** An AllGather or a ReduceScatter has as many turns for every rank, and does not clear the
      flag at the end. */
  lemma SlicedTakesTurns(p: Card, g: nat, r: nat, n: nat, c: nat, cnt: nat, kind: S.Kind, size: nat, slice: nat,
      stepNo: nat, steps: nat, rankOf: seq<nat>)
    requires Valid(p) && g < |p.calls| && r < p.ranks && 2 <= n && c < n && |rankOf| == n && kind != S.AllReduce
    requires p.calls[g] == Times(steps, p.ranks)
    ensures
      var col := H.Column(r, p.ranks, steps > 1, rankOf, size);
      var cs := H.SliceChunks(kind, size, slice, stepNo, 0, steps);
      var reset := if col.split && r == 0 then [H.SetToken(0)] else [];
      Tokens(reset + H.CallOps(n, col, c, cnt, cs) + [H.CardBarrier]) + StageTokens(p, r, Pc(g, Clear))
      == RestTokens(p, r, Pc(g, Reset))
  {
    var col := H.Column(r, p.ranks, steps > 1, rankOf, size);
    var reset := if col.split && r == 0 then [H.SetToken(0)] else [];
    SlicedTokens(n, col, c, cnt, kind, size, slice, stepNo, steps, reset);
    ResetTokens(reset, col.split, r);
    SlicedEnds(p, g, r, steps, Ends(col.split, r) + (Turns(col.split, p.ranks, r, steps) + [Barrier]));
  }

  lemma SlicedEnds(p: Card, g: nat, r: nat, steps: nat, ts: seq<Token>)
    requires Valid(p) && g < |p.calls| && r < p.ranks && p.calls[g] == Times(steps, p.ranks)
    requires ts == Ends(steps > 1, r) + (Turns(steps > 1, p.ranks, r, steps) + [Barrier])
    ensures ts + StageTokens(p, r, Pc(g, Clear)) == RestTokens(p, r, Pc(g, Reset))
  {
    EqualPasses(p.ranks, steps, r);
    StepsSplit(p.ranks, steps);
    CallIsTurns(p, g, r, steps);
    Regroup(Ends(steps > 1, r), Turns(steps > 1, p.ranks, r, steps), [Barrier], Ends(steps > 1, r));
  }

  lemma ResetTokens(reset: seq<H.Op>, split: bool, r: nat)
    requires reset == if split && r == 0 then [H.SetToken(0)] else []
    ensures Tokens(reset) == Ends(split, r)
  {
  }

  lemma StepsSplit(ranks: nat, steps: nat)
    requires ranks > 0
    ensures steps > 1 <==> Times(steps, ranks) > ranks
  {
    assert Times(1, ranks) == ranks;
    if steps > 1 { TimesStep(1, steps, ranks); }
  }

  // ---- the flag at the end of a call with equal turns --------------------------------------------

  lemma FewerPasses(ranks: nat, chunks: nat, r: nat, i: nat)
    requires ranks > 0 && i < PassesFrom(ranks, chunks, r)
    ensures i < PassesFrom(ranks, chunks, 0)
  {
    PassesFromIs(ranks, chunks, r, i);
    PassesFromIs(ranks, chunks, 0, i);
  }

  /** The token has not gone round more often than rank 0 has turns. */
  ghost predicate LapOk(p: Card, s: State)
    requires PcsOk(p, s) && p.ranks > 0
  {
    var g := s.pc[0].g;
    g < |p.calls| && Splits(p, g) ==>
      s.lap[Slot(g)] + (if s.flag[Slot(g)] > 0 then 1 else 0) <= Passes(p, g, 0)
  }

  lemma LapStep(p: Card, s: State, c: nat)
    requires Inv(p, s) && LapOk(p, s) && At(p, s, c) && Enabled(p, s, c) && Inv(p, Apply(p, s, c))
    ensures LapOk(p, Apply(p, s, c))
  {
    var Pc(g, st) := s.pc[c];
    if st.Pass? && Splits(p, g) {
      InTurn(p, s, c);
      FewerPasses(p.ranks, p.calls[g], c, st.i);
    } else if c == 0 && st == Clear {
      assert FlagsOk(p, Apply(p, s, c));
    }
  }

  lemma {:induction false} RunLap(p: Card, tr: seq<State>)
    requires Valid(p) && Run(p, tr)
    ensures Inv(p, tr[|tr| - 1]) && LapOk(p, tr[|tr| - 1])
    decreases |tr|
  {
    RunInv(p, tr);
    if |tr| > 1 {
      var before := tr[..|tr| - 1];
      var s := before[|tr| - 2];
      RunLap(p, before);
      assert SplitToken.Step(p, tr[|tr| - 2], tr[|tr| - 1]);
      var c: nat :| At(p, s, c) && Enabled(p, s, c) && tr[|tr| - 1] == Apply(p, s, c);
      LapStep(p, s, c);
    }
  }

  /** When all ranks have as many turns, the flag is clear by itself at the end: the write that
      AllGather and ReduceScatter lack would change nothing. */
  lemma FlagComesBack(p: Card, tr: seq<State>, steps: nat)
    requires Valid(p) && Run(p, tr) && tr[|tr| - 1].pc[0].g < |p.calls| && tr[|tr| - 1].pc[0].st == Clear
    requires p.calls[tr[|tr| - 1].pc[0].g] == Times(steps, p.ranks) && Splits(p, tr[|tr| - 1].pc[0].g)
    ensures tr[|tr| - 1].flag[Slot(tr[|tr| - 1].pc[0].g)] == 0
  {
    var s := tr[|tr| - 1];
    var g := s.pc[0].g;
    RunLap(p, tr);
    var f := s.flag[Slot(g)];
    assert FlagsOk(p, s) && f < p.ranks;
    EqualPasses(p.ranks, steps, 0);
    EqualPasses(p.ranks, steps, f);
    assert TurnOk(p, s, f) && CloseOk(p, s, 0, f);
  }

  // ---- Reduce ---------------------------------------------------------------------------------------

  function OfReduce(op: RC.Op): seq<Token> {
    match op
    case WaitToken(v) => [WaitFor(v)]
    case SetToken(v) => [SetTo(v)]
    case CardBarrier => [Barrier]
    case _ => []
  }

  function ReduceTokens(ops: seq<RC.Op>): seq<Token> {
    if ops == [] then [] else OfReduce(ops[0]) + ReduceTokens(ops[1..])
  }

  lemma {:induction false} ReduceAppend(a: seq<RC.Op>, b: seq<RC.Op>)
    ensures ReduceTokens(a + b) == ReduceTokens(a) + ReduceTokens(b)
    decreases |a|
  {
    if a == [] { assert a + b == b; } else {
      assert (a + b)[1..] == a[1..] + b;
      ReduceAppend(a[1..], b);
    }
  }

  lemma {:induction false} NoReduceTokens(ops: seq<RC.Op>)
    requires forall i :: 0 <= i < |ops| ==> OfReduce(ops[i]) == []
    ensures ReduceTokens(ops) == []
    decreases |ops|
  {
    if ops != [] { NoReduceTokens(ops[1..]); }
  }

  lemma ReduceStepTokens(n: nat, c: nat, call: RC.Call, cnt: nat, credit: nat, m: nat)
    requires c < n && call.rankId < call.rankNum
    ensures ReduceTokens(RC.StepOps(n, c, call, cnt, credit, m)) ==
            Turns(call.passes > 1, call.rankNum, call.rankId, 1)
  {
    var (local, need) := (RC.LocalOps(call, RC.Off(call, m), RC.Range(call, m)), RC.NeedsCredit(m));
    var chain := RC.ChainOps(n, c, call.root, RC.Range(call, m), RC.Off(call, m), cnt + m + 1, need, credit + m + 1);
    NoReduceTokens(chain);
    ReduceAppend(local, chain);
    LocalTokens(call, RC.Off(call, m), RC.Range(call, m));
  }

  lemma LocalTokens(call: RC.Call, off: nat, at: Memory.Region)
    requires call.rankId < call.rankNum
    ensures ReduceTokens(RC.LocalOps(call, off, at)) == Turns(call.passes > 1, call.rankNum, call.rankId, 1)
  {
    var (wait, body) := (RC.WaitToken(call.rankId), RC.ReduceLocal(off, at));
    var pass := RC.SetToken(Next(call.rankNum, call.rankId));
    assert [wait, body, pass][1..] == [body, pass] && [body, pass][1..] == [pass];
    assert ReduceTokens([pass]) == [SetTo(pass.value)];
    assert Turns(call.passes > 1, call.rankNum, call.rankId, 0) == [];
  }

  lemma {:induction false} TurnsEnd(split: bool, ranks: nat, r: nat, k: nat)
    requires r < ranks
    ensures Turns(split, ranks, r, k + 1) == Turns(split, ranks, r, k) + Turns(split, ranks, r, 1)
    decreases k
  {
    assert Turns(split, ranks, r, 0) == [];
    if k > 0 { TurnsEnd(split, ranks, r, k - 1); }
  }

  lemma CallEnd(n: nat, c: nat, call: RC.Call, cnt: nat, credit: nat, m: nat, before: seq<RC.Op>)
    requires c < n && call.rankId < call.rankNum && before == RC.CallOps(n, c, call, cnt, credit, m)
    ensures RC.CallOps(n, c, call, cnt, credit, m + 1) == before + RC.StepOps(n, c, call, cnt, credit, m)
  {
  }

  lemma {:induction false} ReduceCallTokens(n: nat, c: nat, call: RC.Call, cnt: nat, credit: nat, m: nat,
      ops: seq<RC.Op>)
    requires c < n && call.rankId < call.rankNum && ops == RC.CallOps(n, c, call, cnt, credit, m)
    ensures ReduceTokens(ops) == Turns(call.passes > 1, call.rankNum, call.rankId, m)
    decreases m
  {
    if m > 0 {
      var before := RC.CallOps(n, c, call, cnt, credit, m - 1);
      CallEnd(n, c, call, cnt, credit, m - 1, before);
      ReduceCallTokens(n, c, call, cnt, credit, m - 1, before);
      ReduceStepTokens(n, c, call, cnt, credit, m - 1);
      LastTokens(before, RC.StepOps(n, c, call, cnt, credit, m - 1), call.passes > 1, call.rankNum, call.rankId, m - 1);
    }
  }

  lemma LastTokens(ops: seq<RC.Op>, last: seq<RC.Op>, split: bool, ranks: nat, r: nat, k: nat)
    requires r < ranks
    requires ReduceTokens(ops) == Turns(split, ranks, r, k) && ReduceTokens(last) == Turns(split, ranks, r, 1)
    ensures ReduceTokens(ops + last) == Turns(split, ranks, r, k + 1)
  {
    ReduceAppend(ops, last);
    TurnsEnd(split, ranks, r, k);
  }

  lemma ReduceBelow(n: nat, call: RC.Call, i: nat)
    requires RC.ValidCall(n, call)
    ensures Below(i, RC.Steps(call)) <==>
            Below(i, PassesFrom(call.rankNum, ChunkCount(call.size, RC.SLICE), call.rankId))
  {
    RC.StepsAre(n, call, i);
    PassesFromIs(call.rankNum, ChunkCount(call.size, RC.SLICE), call.rankId, i);
    ChunkCountIs(call.size, RC.SLICE, call.rankId + Times(i, call.rankNum));
    SliceStart(i, call.rankNum, call.rankId);
  }

  /** The slices of rank r are its passes, and the calls that split are those with turns. */
  lemma ReduceTurns(p: Card, g: nat, n: nat, call: RC.Call)
    requires Valid(p) && g < |p.calls| && RC.ValidCall(n, call) && call.rankNum == p.ranks
    requires p.calls[g] == ChunkCount(call.size, RC.SLICE) && call.passes == RC.PassCount(call.size, p.ranks)
    ensures RC.Steps(call) == Passes(p, g, call.rankId)
    ensures call.passes > 1 <==> Splits(p, g)
  {
    var (a, b) := (RC.Steps(call), Passes(p, g, call.rankId));
    forall i: nat ensures Below(i, a) <==> Below(i, b) { ReduceBelow(n, call, i); }
    SameNumber(a, b);
    ChunkCountIs(call.size, RC.SLICE, p.ranks);
    TimesIs(p.ranks, RC.SLICE);
    MorePasses(call.size, p.ranks);
  }

  lemma SliceStart(i: nat, ranks: nat, r: nat)
    ensures Times(r + Times(i, ranks), RC.SLICE) == Times(i, Times(ranks, RC.SLICE)) + Times(r, RC.SLICE)
  {
    RR.StartOf(i, ranks, r, RC.SLICE);
    TimesIs(r, RC.SLICE);
    TimesIs(ranks, RC.SLICE);
  }

  lemma MorePasses(size: nat, ranks: nat)
    requires ranks > 0
    ensures RC.PassCount(size, ranks) > 1 <==> ranks * RC.SLICE < size
  {
    var w := RC.SLICE * ranks;
    var q := (size + w - 1) / w;
    assert size + w - 1 == q * w + (size + w - 1) % w;
    if q > 1 { MulStep(1, q, w); }
  }

  lemma ReduceStream(ops: seq<RC.Op>, end: seq<RC.Op>, reset: seq<RC.Op>, split: bool, r: nat)
    requires end == [RC.CardBarrier] && reset == if split && r == 0 then [RC.SetToken(0)] else []
    ensures ReduceTokens(reset + ops + end + reset) == Ends(split, r) + (ReduceTokens(ops) + [Barrier] + Ends(split, r))
  {
    ReduceAppend(reset + ops + end, reset);
    ReduceAppend(reset + ops, end);
    ReduceAppend(reset, ops);
    assert ReduceTokens(end) == [Barrier];
    assert ReduceTokens(reset) == Ends(split, r);
    Regroup(Ends(split, r), ReduceTokens(ops), [Barrier], Ends(split, r));
  }

  /** What a Reduce of rank r leaves on its stream about the turns. */
  lemma ReduceTakesTurns(p: Card, g: nat, n: nat, c: nat, call: RC.Call, cnt: nat, credit: nat)
    requires Valid(p) && g < |p.calls| && c < n && RC.ValidCall(n, call) && call.rankNum == p.ranks
    requires p.calls[g] == ChunkCount(call.size, RC.SLICE) && call.passes == RC.PassCount(call.size, p.ranks)
    ensures
      var reset := if call.passes > 1 && call.rankId == 0 then [RC.SetToken(0)] else [];
      ReduceTokens(reset + RC.CallOps(n, c, call, cnt, credit, RC.Steps(call)) + [RC.CardBarrier] + reset)
      == RestTokens(p, call.rankId, Pc(g, Reset))
  {
    var reset := if call.passes > 1 && call.rankId == 0 then [RC.SetToken(0)] else [];
    var (ops, k) := (RC.CallOps(n, c, call, cnt, credit, RC.Steps(call)), RC.Steps(call));
    ReduceTurns(p, g, n, call);
    ReduceCallTokens(n, c, call, cnt, credit, k, ops);
    ReduceStream(ops, [RC.CardBarrier], reset, call.passes > 1, call.rankId);
    CallIsTurns(p, g, call.rankId, k);
  }
}
