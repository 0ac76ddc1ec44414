/** The host-side schedule of the ring collectives.

    AllReduce (src/proc.cc, tcclNicPublicWork), AllGather and ReduceScatter
    (tcclPublicWork) cut their data into chunks and send every chunk around a
    ring of cards.  A chunk is the same walk in all three: load local data, then
    a number of sends, each followed by a wait for the previous card and by
    whatever is done with the block that arrived, then copy out.

    A block is named by the card it started from, its origin: the `t`-th block
    that card `c` sends is the one that started `t` cards before `c`. */
module RingSchedule {
  import opened Arith
  import opened Cycle
  import opened Memory
  import opened Terms

  const MAX_SIZE: nat := 64 * 1024 * 1024
  const HALF: nat := MAX_SIZE / 2

  datatype Kind = AllReduce | AllGather | ReduceScatter

  /** One pass of a collective's chunk loop.
      opens: the chunk opens a call, so the previous-card handshake precedes it;
      half:  the half of the cross buffer in use;
      pitch: distance between slots;
      len:   bytes sent per slot;
      user:  offset of the chunk in the user's buffers;
      bytes: bytes copied between user and cross buffers. */
  datatype Chunk = Chunk(kind: Kind, opens: bool, half: nat, pitch: nat, len: nat, user: nat, bytes: nat)

  /** `n` cards on the ring; every ring collective ever issued, in order; the
      values of the two flag counters before the first of them. */
  datatype Ring = Ring(n: nat, chunks: seq<Chunk>, nextcnt: nat, prevcnt: nat)

  predicate ValidChunk(n: nat, ch: Chunk) {
    ch.half < 2 && 0 < ch.len <= ch.pitch && Times(n, ch.pitch) <= HALF
  }

  ghost predicate Valid(r: Ring) {
    && 2 <= r.n
    && (forall g :: 0 <= g < |r.chunks| ==> ValidChunk(r.n, r.chunks[g]))
    && (forall g :: 0 < g < |r.chunks| ==> r.chunks[g].opens || r.chunks[g].half != r.chunks[g - 1].half)
  }

  function Sends(n: nat, kind: Kind): nat
    requires 2 <= n
  {
    if kind == AllReduce then 2 * n - 2 else n - 1
  }

  /** How many of the arriving blocks are reduced into the receive buffer. */
  function Folds(n: nat, kind: Kind): nat
    requires 2 <= n
  {
    match kind case AllReduce => n - 1 case AllGather => 0 case ReduceScatter => n - 2
  }

  /** The slot of a block: ReduceScatter files it under the card it is for. */
  function SlotNo(n: nat, kind: Kind, origin: nat): (slot: nat)
    requires origin < n
    ensures slot < n
  {
    if kind == ReduceScatter then Prev(n, origin) else origin
  }

  function HalfBase(half: nat): nat {
    if half == 0 then 0 else HALF
  }

  function Range(n: nat, ch: Chunk, origin: nat): Region
    requires origin < n
  {
    Slot(HalfBase(ch.half), ch.pitch, ch.len, SlotNo(n, ch.kind, origin))
  }

  /** Slots of one chunk are apart, and so are slots in different halves. */
  lemma RangesApart(n: nat, a: Chunk, i: nat, b: Chunk, j: nat)
    requires ValidChunk(n, a) && ValidChunk(n, b) && i < n && j < n
    requires (a == b && i != j) || a.half != b.half
    ensures Range(n, a, i) != Range(n, b, j) && !Overlap(Range(n, a, i), Range(n, b, j))
  {
    if a == b && i != j {
      SlotsApart(HalfBase(a.half), a.pitch, a.len, SlotNo(n, a.kind, i), SlotNo(n, a.kind, j));
    } else {
      SlotInArea(HalfBase(a.half), a.pitch, a.len, SlotNo(n, a.kind, i), n);
      SlotInArea(HalfBase(b.half), b.pitch, b.len, SlotNo(n, b.kind, j), n);
    }
  }

  /** Every slot lies inside the cross buffer. */
  lemma RangeInBuffer(n: nat, ch: Chunk, i: nat)
    requires ValidChunk(n, ch) && i < n
    ensures Range(n, ch, i).off + Range(n, ch, i).len <= MAX_SIZE
  {
    SlotInArea(HalfBase(ch.half), ch.pitch, ch.len, SlotNo(n, ch.kind, i), n);
  }

  // ---- control flow of one card -------------------------------------------

  datatype Stage =
    | SetReady | AwaitReady          // handshake with the previous and next card
    | Load
    | Push(t: nat) | Flag(t: nat) | Await(t: nat) | Fold(t: nat)
    | CopyOut

  datatype Pc = Pc(g: nat, st: Stage)

  function First(r: Ring, g: nat): Pc {
    Pc(g, if g < |r.chunks| && r.chunks[g].opens then SetReady else Load)
  }

  function Kinds(r: Ring, g: nat): Kind
    requires g < |r.chunks|
  {
    r.chunks[g].kind
  }

  predicate PcOk(r: Ring, pc: Pc)
    requires 2 <= r.n
  {
    if pc.g < |r.chunks| then
      match pc.st
      case SetReady | AwaitReady => r.chunks[pc.g].opens
      case Push(t) => t < Sends(r.n, Kinds(r, pc.g))
      case Flag(t) => t < Sends(r.n, Kinds(r, pc.g))
      case Await(t) => t < Sends(r.n, Kinds(r, pc.g))
      case Fold(t) => t < Sends(r.n, Kinds(r, pc.g))
      case _ => true
    else
      pc == First(r, |r.chunks|)
  }

  function Advance(r: Ring, pc: Pc): (pc': Pc)
    requires 2 <= r.n && pc.g < |r.chunks| && PcOk(r, pc)
    ensures PcOk(r, pc')
  {
    match pc.st
    case SetReady => Pc(pc.g, AwaitReady)
    case AwaitReady => Pc(pc.g, Load)
    case Load => Pc(pc.g, Push(0))
    case Push(t) => Pc(pc.g, Flag(t))
    case Flag(t) => Pc(pc.g, Await(t))
    case Await(t) => Pc(pc.g, Fold(t))
    case Fold(t) => Pc(pc.g, if t + 1 < Sends(r.n, Kinds(r, pc.g)) then Push(t + 1) else CopyOut)
    case CopyOut => First(r, pc.g + 1)
  }

  // ---- what a card has done when it is about to execute a stage -----------

  function PushedIn(n: nat, kind: Kind, st: Stage): nat
    requires 2 <= n
  {
    match st
    case Push(t) => t
    case Flag(t) => t + 1
    case Await(t) => t + 1
    case Fold(t) => t + 1
    case CopyOut => Sends(n, kind)
    case _ => 0
  }

  function SentIn(n: nat, kind: Kind, st: Stage): nat
    requires 2 <= n
  {
    if st.Flag? then st.t else PushedIn(n, kind, st)
  }

  function WaitedIn(n: nat, kind: Kind, st: Stage): nat
    requires 2 <= n
  {
    if st.Flag? || st.Await? then st.t else PushedIn(n, kind, st)
  }

  function FoldedIn(n: nat, kind: Kind, st: Stage): nat
    requires 2 <= n
  {
    if st.Flag? || st.Await? || st.Fold? then st.t else PushedIn(n, kind, st)
  }

  predicate LoadedIn(st: Stage) {
    !(st.SetReady? || st.AwaitReady? || st.Load?)
  }

  /** Value of the send counter when chunk `g` begins. */
  function Base(r: Ring, g: nat): nat
    requires 2 <= r.n && g <= |r.chunks|
  {
    if g == 0 then r.nextcnt else Base(r, g - 1) + Sends(r.n, Kinds(r, g - 1))
  }

  lemma {:induction false} BaseMono(r: Ring, g: nat, h: nat)
    requires 2 <= r.n && g <= h <= |r.chunks|
    ensures Base(r, g) <= Base(r, h)
    decreases h
  {
    if g < h { BaseMono(r, g, h - 1); }
  }

  /** Value of the handshake counter when chunk `g` begins. */
  function Shakes(r: Ring, g: nat): nat
    requires g <= |r.chunks|
  {
    if g == 0 then r.prevcnt else Shakes(r, g - 1) + if r.chunks[g - 1].opens then 1 else 0
  }

  lemma {:induction false} ShakesMono(r: Ring, g: nat, h: nat)
    requires g <= h <= |r.chunks|
    ensures Shakes(r, g) <= Shakes(r, h)
    decreases h
  {
    if g < h { ShakesMono(r, g, h - 1); }
  }

  function Pushes(r: Ring, pc: Pc): nat
    requires 2 <= r.n && pc.g <= |r.chunks|
  {
    Base(r, pc.g) + if pc.g < |r.chunks| then PushedIn(r.n, Kinds(r, pc.g), pc.st) else 0
  }

  function Sent(r: Ring, pc: Pc): nat
    requires 2 <= r.n && pc.g <= |r.chunks|
  {
    Base(r, pc.g) + if pc.g < |r.chunks| then SentIn(r.n, Kinds(r, pc.g), pc.st) else 0
  }

  function Waited(r: Ring, pc: Pc): nat
    requires 2 <= r.n && pc.g <= |r.chunks|
  {
    Base(r, pc.g) + if pc.g < |r.chunks| then WaitedIn(r.n, Kinds(r, pc.g), pc.st) else 0
  }

  /** Handshakes sent, and handshakes awaited. */
  function Shook(r: Ring, pc: Pc): nat
    requires pc.g <= |r.chunks|
  {
    Shakes(r, pc.g) + if pc.g < |r.chunks| && r.chunks[pc.g].opens && !pc.st.SetReady? then 1 else 0
  }

  function Shaken(r: Ring, pc: Pc): nat
    requires pc.g <= |r.chunks|
  {
    Shakes(r, pc.g) +
    if pc.g < |r.chunks| && r.chunks[pc.g].opens && !pc.st.SetReady? && !pc.st.AwaitReady? then 1 else 0
  }

  // ---- values --------------------------------------------------------------

  function Ahead(n: nat, c: nat, k: nat): (r: nat)
    requires c < n && k <= n
    ensures r < n
  {
    if c + k < n then c + k else c + k - n
  }

  /** The block of origin `o` after `k` more cards reduced theirs onto it: each
      card puts its own contribution on the left. */
  function Acc(r: Ring, g: nat, o: nat, k: nat): Term
    requires g < |r.chunks| && o < r.n && k < r.n
  {
    var slot := SlotNo(r.n, Kinds(r, g), o);
    if k == 0 then Leaf(o, g, slot) else Node(Leaf(Ahead(r.n, o, k), g, slot), Acc(r, g, o, k - 1))
  }

  /** What card `c` sends at step `t`; at the step after the last, what it would send. */
  function Val(r: Ring, g: nat, c: nat, t: nat): Term
    requires 2 <= r.n && g < |r.chunks| && c < r.n && t <= Sends(r.n, Kinds(r, g))
  {
    var depth := if Kinds(r, g) == AllGather then 0 else if t < r.n then t else r.n - 1;
    Acc(r, g, Back(r.n, c, t), depth)
  }

  /** All cards' contributions to one slot. */
  function Full(r: Ring, g: nat, origin: nat): Term
    requires 2 <= r.n && g < |r.chunks| && origin < r.n
  {
    Acc(r, g, origin, r.n - 1)
  }
}
