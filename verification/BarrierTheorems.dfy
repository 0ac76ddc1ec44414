/** The barrier is exact in every run over any mix of epochs: nobody passes before the
    arrivals it waits for, no release is missed, and the ranks never deadlock. */
module BarrierTheorems {
  import opened Arith
  import opened Barrier

  ghost predicate Step(p: Card, s: State, s': State) {
    exists r: nat :: Running(p, s, r) && Enabled(p, s, r) && s' == Apply(p, s, r)
  }

  ghost predicate Run(p: Card, tr: seq<State>) {
    && tr != [] && Init(p, tr[0])
    && (forall i :: 0 <= i < |tr| ==> Shape(p, tr[i]))
    && forall i :: 0 < i < |tr| ==> Step(p, tr[i - 1], tr[i])
  }

  lemma {:induction false} RunInv(p: Card, tr: seq<State>)
    requires Valid(p) && Run(p, tr)
    ensures Inv(p, tr[|tr| - 1])
    decreases |tr|
  {
    if |tr| == 1 {
      InitInv(p, tr[0]);
    } else {
      var s := tr[|tr| - 2];
      assert tr[..|tr| - 1][|tr| - 2] == s;
      RunInv(p, tr[..|tr| - 1]);
      assert Step(p, s, tr[|tr| - 1]);
      var r: nat :| Running(p, s, r) && Enabled(p, s, r) && tr[|tr| - 1] == Apply(p, s, r);
      StepInv(p, s, r);
    }
  }

  /** A rank that waited in epoch e is past it only when every rank has added (or rank 0
      has released it), and the same holds for every earlier epoch, waited for or not. */
  lemma NobodyPassesEarly(p: Card, tr: seq<State>, r: nat, e: nat, d: nat, t: nat)
    requires Valid(p) && Run(p, tr) && r < p.n && t < p.n && d <= e < |p.epochs|
    requires e < tr[|tr| - 1].pos[r].e && Waits(p.epochs[e], r)
    requires p.epochs[d] == Release ==> t == 0
    ensures Acted(p, tr[|tr| - 1].pos[t], t, d)
  {
    var s := tr[|tr| - 1];
    RunInv(p, tr);
    assert PassedOk(p, s, r, e);
    DoneBackTo(p, s, e, d);
    DoneMeans(p, s, d);
  }

  /** A waiting rank can go on exactly when everyone it waits for has arrived. */
  lemma WaitsAreExact(p: Card, tr: seq<State>, r: nat)
    requires Valid(p) && Run(p, tr) && Running(p, tr[|tr| - 1], r) && OpAt(p, tr[|tr| - 1], r).WaitEq?
    ensures
      var s := tr[|tr| - 1];
      var e := s.pos[r].e;
      Enabled(p, s, r) <==>
        if p.epochs[e] == Release then s.pos[0].e > e
        else forall t :: 0 <= t < p.n ==> Acted(p, s.pos[t], t, e)
  {
    var s := tr[|tr| - 1];
    RunInv(p, tr);
    WaitExact(p, s, r);
    DoneMeans(p, s, s.pos[r].e);
  }

  /** Once a rank is released it stays released until it looks, whatever others do. */
  lemma ReleaseStays(p: Card, tr: seq<State>, r: nat, t: nat)
    requires Valid(p) && Run(p, tr) && r != t
    requires Running(p, tr[|tr| - 1], r) && OpAt(p, tr[|tr| - 1], r).WaitEq? && Enabled(p, tr[|tr| - 1], r)
    requires Running(p, tr[|tr| - 1], t) && Enabled(p, tr[|tr| - 1], t)
    ensures Running(p, Apply(p, tr[|tr| - 1], t), r) && Enabled(p, Apply(p, tr[|tr| - 1], t), r)
  {
    var s := tr[|tr| - 1];
    RunInv(p, tr);
    StepInv(p, s, t);
    WaitExact(p, s, r);
    WaitExact(p, Apply(p, s, t), r);
    ShareStep(p, s, t, s.pos[r].e);
    ShareBound(p, Apply(p, s, t), s.pos[r].e);
  }

  // ---- progress -----------------------------------------------------------------

  function Progress(pos: Pos): nat {
    2 * pos.e + pos.i
  }

  /** The least advanced of the first k ranks; the one with the lower number among equals. */
  lemma {:induction false} Last(p: Card, s: State, k: nat) returns (r: nat)
    requires Shape(p, s) && 0 < k <= p.n
    ensures r < k && forall t :: 0 <= t < k ==> Progress(s.pos[r]) <= Progress(s.pos[t])
    ensures forall t :: 0 <= t < r ==> Progress(s.pos[r]) < Progress(s.pos[t])
    decreases k
  {
    if k == 1 {
      r := 0;
    } else {
      r := Last(p, s, k - 1);
      if Progress(s.pos[k - 1]) < Progress(s.pos[r]) { r := k - 1; }
    }
  }

  lemma LastIsEnabled(p: Card, s: State, r: nat)
    requires Valid(p) && Inv(p, s) && Running(p, s, r)
    requires forall t :: 0 <= t < p.n ==> Progress(s.pos[r]) <= Progress(s.pos[t])
    requires forall t :: 0 <= t < r ==> Progress(s.pos[r]) < Progress(s.pos[t])
    ensures Enabled(p, s, r)
  {
    if OpAt(p, s, r).WaitEq? {
      var e := s.pos[r].e;
      WaitExact(p, s, r);
      DoneMeans(p, s, e);
      forall t: nat | t < p.n && (p.epochs[e] == Release ==> t == 0) ensures Acted(p, s.pos[t], t, e) {
        assert PosOk(p, s.pos[t], t) && PosOk(p, s.pos[r], r);
      }
    }
  }

  ghost predicate SomeoneCanStep(p: Card, s: State) {
    exists r: nat :: Running(p, s, r) && Enabled(p, s, r)
  }

  /** While a rank has something left to do, some rank can do its next operation. */
  lemma BarrierNeverDeadlocks(p: Card, tr: seq<State>, t: nat)
    requires Valid(p) && Run(p, tr) && Running(p, tr[|tr| - 1], t)
    ensures SomeoneCanStep(p, tr[|tr| - 1])
  {
    var s := tr[|tr| - 1];
    RunInv(p, tr);
    var r := Last(p, s, p.n);
    assert PosOk(p, s.pos[t], t) && PosOk(p, s.pos[r], r);
    LastIsEnabled(p, s, r);
  }

  function Total(s: State, k: nat): nat
    requires k <= |s.pos|
  {
    if k == 0 then 0 else Total(s, k - 1) + Progress(s.pos[k - 1])
  }

  lemma {:induction false} TotalStep(s: State, s': State, r: nat, k: nat)
    requires |s.pos| == |s'.pos| && r < |s.pos| && k <= |s.pos| && s'.pos == s.pos[r := s'.pos[r]]
    requires Progress(s'.pos[r]) > Progress(s.pos[r])
    ensures Total(s', k) >= Total(s, k) + if r < k then 1 else 0
    decreases k
  {
    if k > 0 { TotalStep(s, s', r, k - 1); }
  }

  lemma {:induction false} TotalBound(p: Card, s: State, k: nat)
    requires Shape(p, s) && k <= p.n
    ensures Total(s, k) <= Times(k, 2 * |p.epochs|)
    decreases k
  {
    if k > 0 {
      TotalBound(p, s, k - 1);
      assert PosOk(p, s.pos[k - 1], k - 1);
    }
  }

  lemma {:induction false} RunTotal(p: Card, tr: seq<State>)
    requires Valid(p) && Run(p, tr)
    ensures Inv(p, tr[|tr| - 1]) && |tr| <= 1 + Total(tr[|tr| - 1], p.n)
    decreases |tr|
  {
    RunInv(p, tr);
    if |tr| > 1 {
      var before := tr[..|tr| - 1];
      RunTotal(p, before);
      assert Step(p, tr[|tr| - 2], tr[|tr| - 1]);
      var s := before[|tr| - 2];
      var r: nat :| Running(p, s, r) && Enabled(p, s, r) && tr[|tr| - 1] == Apply(p, s, r);
      TotalStep(s, tr[|tr| - 1], r, p.n);
    }
  }

  /** Runs are bounded, so one that cannot go on has taken every rank to the end. */
  lemma BarrierTerminates(p: Card, tr: seq<State>)
    requires Valid(p) && Run(p, tr)
    ensures |tr| <= 1 + Times(p.n, 2 * |p.epochs|)
  {
    RunTotal(p, tr);
    TotalBound(p, tr[|tr| - 1], p.n);
  }
}
