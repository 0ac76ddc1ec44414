/** All cards of a ring running concurrently, in any interleaving.

    `data[c]` and `ready[c]` are flags 0 and 1 of card c, `inb[c]` and `out[c]`
    its cross buffers, `user[c]` what it has copied to its user, by chunk and slot. */
module RingMachine {
  import opened Cycle
  import opened Memory
  import opened Terms
  import opened RingSchedule

  datatype State = State(
    pc: seq<Pc>, data: seq<nat>, ready: seq<nat>,
    inb: seq<Mem>, out: seq<Mem>, user: seq<map<(nat, nat), Term>>)

  predicate Shape(r: Ring, s: State) {
    |s.pc| == |s.data| == |s.ready| == |s.inb| == |s.out| == |s.user| == r.n
  }

  /** Any buffer contents, any flag values that the counters have reached. */
  ghost predicate Init(r: Ring, s: State) {
    && Shape(r, s)
    && (forall c :: 0 <= c < r.n ==>
        s.pc[c] == First(r, 0) && s.data[c] <= r.nextcnt && s.ready[c] <= r.prevcnt)
  }

  /** The image that loading chunk `g` leaves in a card's send buffer: slots 0..k-1. */
  function Image(r: Ring, g: nat, c: nat, m: Mem, k: nat): Mem
    requires g < |r.chunks| && k <= r.n
  {
    if k == 0 then m
    else Put(Image(r, g, c, m, k - 1), Range(r.n, r.chunks[g], k - 1), Leaf(c, g, SlotNo(r.n, Kinds(r, g), k - 1)))
  }

  lemma {:induction false} ImageGet(r: Ring, g: nat, c: nat, m: Mem, k: nat, o: nat)
    requires Valid(r) && g < |r.chunks| && o < k <= r.n
    ensures Get(Image(r, g, c, m, k), Range(r.n, r.chunks[g], o)) == Leaf(c, g, SlotNo(r.n, Kinds(r, g), o))
    decreases k
  {
    if o < k - 1 {
      ImageGet(r, g, c, m, k - 1, o);
      RangesApart(r.n, r.chunks[g], o, r.chunks[g], k - 1);
    }
  }

  predicate At(r: Ring, s: State, c: nat)
    requires 2 <= r.n
  {
    Shape(r, s) && c < r.n && s.pc[c].g < |r.chunks| && PcOk(r, s.pc[c])
  }

  predicate Enabled(r: Ring, s: State, c: nat)
    requires 2 <= r.n && At(r, s, c)
  {
    var Pc(g, st) := s.pc[c];
    && (st.Await? ==> s.data[c] >= Base(r, g) + st.t + 1)
    && (st.AwaitReady? ==> s.ready[c] >= Shakes(r, g) + 1)
  }

  function DataAfter(r: Ring, s: State, c: nat): seq<nat>
    requires 2 <= r.n && At(r, s, c)
  {
    var Pc(g, st) := s.pc[c];
    if st.Flag? then s.data[Next(r.n, c) := Base(r, g) + st.t + 1] else s.data
  }

  function ReadyAfter(r: Ring, s: State, c: nat): seq<nat>
    requires 2 <= r.n && At(r, s, c)
  {
    var Pc(g, st) := s.pc[c];
    if st.SetReady? then s.ready[Prev(r.n, c) := Shakes(r, g) + 1] else s.ready
  }

  function InAfter(r: Ring, s: State, c: nat): seq<Mem>
    requires 2 <= r.n && At(r, s, c)
  {
    var Pc(g, st) := s.pc[c];
    if st.Load? && Kinds(r, g) != AllGather then s.inb[c := Image(r, g, c, s.inb[c], r.n)] else s.inb
  }

  /** The block that card c sends at step t of its chunk. */
  function Outgoing(r: Ring, s: State, c: nat, t: nat): Term
    requires 2 <= r.n && At(r, s, c) && t < Sends(r.n, Kinds(r, s.pc[c].g))
  {
    var ch := r.chunks[s.pc[c].g];
    Get(if t == 0 && ch.kind != AllGather then s.inb[c] else s.out[c], Range(r.n, ch, Back(r.n, c, t)))
  }

  function OutAfter(r: Ring, s: State, c: nat): seq<Mem>
    requires 2 <= r.n && At(r, s, c)
  {
    var Pc(g, st) := s.pc[c];
    var ch := r.chunks[g];
    match st
    case Load =>
      if ch.kind == AllGather then s.out[c := Put(s.out[c], Range(r.n, ch, c), Leaf(c, g, c))] else s.out
    case Push(t) =>
      var to := Next(r.n, c);
      s.out[to := Put(s.out[to], Range(r.n, ch, Back(r.n, c, t)), Outgoing(r, s, c, t))]
    case Fold(t) =>
      var range := Range(r.n, ch, Back(r.n, Prev(r.n, c), t));
      if t < Folds(r.n, ch.kind) then
        s.out[c := Put(s.out[c], range, Node(Get(s.inb[c], range), Get(s.out[c], range)))]
      else s.out
    case _ => s.out
  }

  /** Every slot of a chunk, as read from a buffer. */
  function AllSlots(r: Ring, g: nat, m: Mem): (slots: map<(nat, nat), Term>)
    requires g < |r.chunks|
    ensures forall k :: k in slots <==> k.0 == g && k.1 < r.n
    ensures forall k :: k in slots ==> slots[k] == Get(m, Range(r.n, r.chunks[g], k.1))
  {
    map o | 0 <= o < r.n :: (g, o) := Get(m, Range(r.n, r.chunks[g], o))
  }

  function UserAfter(r: Ring, s: State, c: nat): seq<map<(nat, nat), Term>>
    requires 2 <= r.n && At(r, s, c)
  {
    var Pc(g, st) := s.pc[c];
    var ch := r.chunks[g];
    match ch.kind
    case AllGather =>
      if st.Load? then s.user[c := s.user[c][(g, c) := Leaf(c, g, c)]]
      else if st.Fold? then
        var o := Back(r.n, Prev(r.n, c), st.t);
        s.user[c := s.user[c][(g, o) := Get(s.out[c], Range(r.n, ch, o))]]
      else s.user
    case AllReduce =>
      if st.CopyOut? then
        s.user[c := s.user[c] + AllSlots(r, g, s.out[c])]
      else s.user
    case ReduceScatter =>
      if st.CopyOut? then
        var range := Range(r.n, ch, Next(r.n, c));
        s.user[c := s.user[c][(g, c) := Node(Get(s.inb[c], range), Get(s.out[c], range))]]
      else s.user
  }

  /** Card c executes the stage it is at. */
  function Apply(r: Ring, s: State, c: nat): State
    requires 2 <= r.n && At(r, s, c) && Enabled(r, s, c)
  {
    State(s.pc[c := Advance(r, s.pc[c])], DataAfter(r, s, c), ReadyAfter(r, s, c),
          InAfter(r, s, c), OutAfter(r, s, c), UserAfter(r, s, c))
  }

  ghost predicate Step(r: Ring, s: State, s': State)
    requires 2 <= r.n
  {
    exists c: nat :: At(r, s, c) && Enabled(r, s, c) && s' == Apply(r, s, c)
  }

  // ---- control invariant -----------------------------------------------------

  ghost predicate PcsOk(r: Ring, s: State)
    requires 2 <= r.n
  {
    && Shape(r, s)
    && (forall c :: 0 <= c < r.n ==> s.pc[c].g <= |r.chunks| && PcOk(r, s.pc[c]))
  }

  /** Card c has waited for what its neighbours did, and its flags say what they did. */
  ghost predicate CardOk(r: Ring, s: State, c: nat)
    requires 2 <= r.n && PcsOk(r, s) && c < r.n
  {
    var (before, after) := (s.pc[Prev(r.n, c)], s.pc[Next(r.n, c)]);
    && Waited(r, s.pc[c]) <= Sent(r, before)
    && FlagIs(s.data[c], Sent(r, before), r.nextcnt)
    && Shaken(r, s.pc[c]) <= Shook(r, after)
    && FlagIs(s.ready[c], Shook(r, after), r.prevcnt)
  }

  ghost predicate Control(r: Ring, s: State)
    requires 2 <= r.n
  {
    PcsOk(r, s) && forall c :: 0 <= c < r.n ==> CardOk(r, s, c)
  }

  /** A flag shows its writer's counter, unless the writer has not written yet. */
  predicate FlagIs(flag: nat, count: nat, start: nat) {
    flag == count || (count == start && flag <= start)
  }

  lemma InitControl(r: Ring, s: State)
    requires 2 <= r.n && Init(r, s)
    ensures Control(r, s)
  {
    assert forall c :: 0 <= c < r.n ==> s.pc[c] == First(r, 0);
  }

  lemma ControlStep(r: Ring, s: State, c: nat)
    requires 2 <= r.n && Control(r, s) && At(r, s, c) && Enabled(r, s, c)
    ensures Control(r, Apply(r, s, c))
  {
    var s' := Apply(r, s, c);
    assert PcsOk(r, s');
    forall d | 0 <= d < r.n ensures CardOk(r, s', d) {
      CardStep(r, s, c, d);
    }
  }

  lemma CardStep(r: Ring, s: State, c: nat, d: nat)
    requires 2 <= r.n && Control(r, s) && At(r, s, c) && Enabled(r, s, c) && d < r.n
    requires PcsOk(r, Apply(r, s, c))
    ensures CardOk(r, Apply(r, s, c), d)
  {
    assert CardOk(r, s, d);
    CounterStep(r, s.pc[c]);
    BaseMono(r, 0, s.pc[c].g);
    ShakesMono(r, 0, s.pc[c].g);
  }

  /** How one stage moves the counters. */
  lemma CounterStep(r: Ring, pc: Pc)
    requires 2 <= r.n && pc.g < |r.chunks| && PcOk(r, pc)
    ensures
      var pc' := Advance(r, pc);
      && Pushes(r, pc') == Pushes(r, pc) + (if pc.st.Push? then 1 else 0)
      && Sent(r, pc') == Sent(r, pc) + (if pc.st.Flag? then 1 else 0)
      && Waited(r, pc') == Waited(r, pc) + (if pc.st.Await? then 1 else 0)
      && Shook(r, pc') == Shook(r, pc) + (if pc.st.SetReady? then 1 else 0)
      && Shaken(r, pc') == Shaken(r, pc) + (if pc.st.AwaitReady? then 1 else 0)
  {
  }

  // ---- the dependency that travels around the ring ---------------------------

  lemma {:induction false} Spacing(r: Ring, s: State, c: nat, k: nat)
    requires Valid(r) && Control(r, s) && c < r.n && k < r.n
    ensures Sent(r, s.pc[c]) <= Sent(r, s.pc[Back(r.n, c, k)]) + k
    decreases k
  {
    if k > 0 {
      Spacing(r, s, c, k - 1);
      var d := Back(r.n, c, k - 1);
      assert CardOk(r, s, d) && Prev(r.n, d) == Back(r.n, c, k);
    }
  }

  /** A card issues its T-th send only after its successor has issued send T-n+1. */
  lemma SuccessorBound(r: Ring, s: State, c: nat)
    requires Valid(r) && Control(r, s) && c < r.n
    ensures Pushes(r, s.pc[c]) <= Sent(r, s.pc[Next(r.n, c)]) + r.n - 1
  {
    var p := Prev(r.n, c);
    assert CardOk(r, s, c);
    Spacing(r, s, p, r.n - 2);
    assert Back(r.n, p, r.n - 2) == Next(r.n, c);
  }
}
