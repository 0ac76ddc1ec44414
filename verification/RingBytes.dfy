/** The streams of the ring collectives, executed operation by operation.

    `Exec` gives every stream operation its effect, from its arguments alone, on flags,
    cross buffers and the memory of users.  Cards that execute what the host code left on
    their streams, in any interleaving, do what the cards of `RingMachine` do; so every
    user has every byte of the result. */
module RingBytes {
  import opened Arith
  import opened Bytes
  import opened Cycle
  import opened Memory
  import opened Terms
  import opened RingSchedule
  import opened RingMachine
  import opened RingHost
  import opened RingTheorems
  import opened RingProgress

  /** A call as the streams of one column see it: its number, the column, and what the ranks
      send, by card, rank of the card and byte. */
  datatype Call<T> = Call(no: nat, col: Column, send: (nat, nat, nat) -> T)

  /** A ring, the call to which each chunk belongs, the element operation, and a value for
      what nobody has written. */
  datatype Env<!T> = Env(r: Ring, calls: seq<Call<T>>, plus: (T, T) -> T, junk: T)

  /** Flags 0 and 1 of every card, its cross buffers, and what its users have received. */
  datatype World<T> = World(data: seq<nat>, ready: seq<nat>, inb: seq<nat -> T>, out: seq<nat -> T>,
    recv: seq<(nat, nat, nat) -> T>)

  predicate Sized<T>(n: nat, w: World<T>) {
    |w.data| == |w.ready| == |w.inb| == |w.out| == |w.recv| == n
  }

  // ---- what an operation does ------------------------------------------------------------

  /** What the column's rank on every card is to get, reduced into slots 0 .. k-1. */
  function ForCards<T>(to: nat -> T, call: Call<T>, plus: (T, T) -> T, c: nat, user: nat, len: nat, base: nat,
      pitch: nat, k: nat): nat -> T
    requires call.col.rankNum > 0 && k <= |call.col.rankOf|
  {
    if k == 0 then to
    else
      Copied(ForCards(to, call, plus, c, user, len, base, pitch, k - 1), base + Times(k - 1, pitch), len,
             (u: nat) => Local(plus, call.col.rankNum, call.send, c, u),
             Times(call.col.rankOf[k - 1], call.col.dataSize) + user)
  }

  /** Card c executes one operation of a call. */
  function Exec<T>(n: nat, w: World<T>, c: nat, call: Call<T>, plus: (T, T) -> T, x: Op): (w': World<T>)
    requires Sized(n, w) && c < n && ColumnOk(n, call.col)
    ensures Sized(n, w')
  {
    var col := call.col;
    match x
    case SendFlag(no, to, v) =>
      if to >= n then w else if no == 0 then w.(data := w.data[to := v]) else w.(ready := w.ready[to := v])
    case ReduceLocal(user, len, base) =>
      w.(inb := w.inb[c := Copied(w.inb[c], base, len, (u: nat) => Local(plus, col.rankNum, call.send, c, u), user)])
    case ReduceForCards(user, len, base, pitch) =>
      w.(inb := w.inb[c := ForCards(w.inb[c], call, plus, c, user, len, base, pitch, n)])
    case MoveIn(user, len, base) =>
      w.(inb := w.inb[c := Copied(w.inb[c], base, len, (u: nat) => call.send(c, col.rankId, u), user)])
    case MoveOut(user, at) =>
      w.(out := w.out[c := Copied(w.out[c], at.off, at.len, (u: nat) => call.send(c, col.rankId, u), user)])
    case OwnToUsers(user, len, dst) =>
      w.(recv := w.recv[c := Given(w.recv[c], call.no, 0, col.rankNum, dst, len,
                                   (u: nat) => call.send(c, col.rankId, u), user)])
    case PushData(src, at, to) =>
      if to >= n then w
      else
        var from := if src == InBuff then w.inb[c] else w.out[c];
        w.(out := w.out[to := Copied(w.out[to], at.off, at.len, from, at.off)])
    case Combine(at) => w.(out := w.out[c := Combined(w.out[c], at, plus, w.inb[c], w.out[c])])
    case CombineToUser(at, dst) =>
      w.(recv := w.recv[c := Given(w.recv[c], call.no, col.rankId, col.rankId + 1, dst, at.len,
                                   Combined(w.out[c], at, plus, w.inb[c], w.out[c]), at.off)])
    case ToUsers(at, dst) =>
      w.(recv := w.recv[c := Given(w.recv[c], call.no, 0, col.rankNum, dst, at.len, w.out[c], at.off)])
    case _ => w
  }

  /** A wait lets card c go on.  The token and the card barrier order the ranks of a card
      among one another, see SplitToken and TokenRings. */
  predicate Passes<T>(n: nat, w: World<T>, c: nat, x: Op)
    requires Sized(n, w) && c < n
  {
    match x
    case WaitGeq(no, v) => (if no == 0 then w.data[c] else w.ready[c]) >= v
    case _ => true
  }

  function ExecAll<T>(n: nat, w: World<T>, c: nat, call: Call<T>, plus: (T, T) -> T, xs: seq<Op>): (w': World<T>)
    requires Sized(n, w) && c < n && ColumnOk(n, call.col)
    ensures Sized(n, w')
    decreases |xs|
  {
    if xs == [] then w else ExecAll(n, Exec(n, w, c, call, plus, xs[0]), c, call, plus, xs[1..])
  }

  lemma ExecOne<T>(n: nat, w: World<T>, c: nat, call: Call<T>, plus: (T, T) -> T, x: Op)
    requires Sized(n, w) && c < n && ColumnOk(n, call.col)
    ensures ExecAll(n, w, c, call, plus, [x]) == Exec(n, w, c, call, plus, x)
  {
  }

  lemma ExecTwo<T>(n: nat, w: World<T>, c: nat, call: Call<T>, plus: (T, T) -> T, x: Op, y: Op)
    requires Sized(n, w) && c < n && ColumnOk(n, call.col)
    ensures ExecAll(n, w, c, call, plus, [x, y]) == Exec(n, Exec(n, w, c, call, plus, x), c, call, plus, y)
  {
    assert [x, y][1..] == [y];
    ExecOne(n, Exec(n, w, c, call, plus, x), c, call, plus, y);
  }

  lemma {:induction false} ExecAppend<T>(n: nat, w: World<T>, c: nat, call: Call<T>, plus: (T, T) -> T, xs: seq<Op>,
      ys: seq<Op>)
    requires Sized(n, w) && c < n && ColumnOk(n, call.col)
    ensures ExecAll(n, w, c, call, plus, xs + ys) ==
            ExecAll(n, ExecAll(n, w, c, call, plus, xs), c, call, plus, ys)
    decreases |xs|
  {
    if xs == [] {
      assert xs + ys == ys;
    } else {
      assert (xs + ys)[1..] == xs[1..] + ys;
      ExecAppend(n, Exec(n, w, c, call, plus, xs[0]), c, call, plus, xs[1..], ys);
    }
  }

  /** Waiting for the turn and passing it on leave buffers and users alone. */
  lemma ExecTurn<T>(n: nat, w: World<T>, c: nat, call: Call<T>, plus: (T, T) -> T, xs: seq<Op>)
    requires Sized(n, w) && c < n && ColumnOk(n, call.col)
    ensures ExecAll(n, w, c, call, plus, TakeTurn(call.col, xs)) == ExecAll(n, w, c, call, plus, xs)
  {
    var col := call.col;
    if col.split {
      var (wait, pass) := (WaitToken(col.rankId), SetToken(Next(col.rankNum, col.rankId)));
      ExecAppend(n, w, c, call, plus, [wait] + xs, [pass]);
      ExecAppend(n, w, c, call, plus, [wait], xs);
      ExecOne(n, w, c, call, plus, wait);
      ExecOne(n, ExecAll(n, w, c, call, plus, xs), c, call, plus, pass);
    } else {
      assert TakeTurn(col, xs) == xs;
    }
  }

  // ---- the bytes that a symbolic block stands for --------------------------------------------

  /** Byte x of slot s of chunk g, as card c has it before anything is sent. */
  function InputAt<T>(e: Env<T>, c: nat, g: nat, s: nat, x: nat): T {
    if !(g < |e.r.chunks| == |e.calls| && ColumnOk(e.r.n, e.calls[g].col) && s < e.r.n) then e.junk
    else
      var (ch, call) := (e.r.chunks[g], e.calls[g]);
      match ch.kind
      case AllReduce => Local(e.plus, call.col.rankNum, call.send, c, Times(s, ch.pitch) + x + ch.user)
      case AllGather => call.send(c, call.col.rankId, x + ch.user)
      case ReduceScatter =>
        Local(e.plus, call.col.rankNum, call.send, c, x + (Times(call.col.rankOf[s], call.col.dataSize) + ch.user))
  }

  function Inputs<T>(e: Env<T>, x: nat): (nat, nat, nat) -> T {
    (c: nat, g: nat, s: nat) => InputAt(e, c, g, s, x)
  }

  /** Byte x of a block. */
  function Val<T>(e: Env<T>, t: Term, x: nat): T {
    Eval(t, e.plus, Inputs(e, x), e.junk)
  }

  /** Byte x of slot s of a chunk is one of the user's bytes; a short AllReduce chunk does not
      fill its slots. */
  predicate Inside(ch: Chunk, s: nat, x: nat) {
    ch.kind == AllReduce ==> Times(s, ch.pitch) + x < ch.bytes
  }

  /** All that byte x of a block is made of comes from users. */
  predicate Known(r: Ring, t: Term, x: nat) {
    match t
    case Junk => false
    case Leaf(c, g, s) => c < r.n && g < |r.chunks| && s < r.n && Inside(r.chunks[g], s, x)
    case Node(a, b) => Known(r, a, x) && Known(r, b, x)
  }

  /** A buffer holds the bytes of the blocks that are intact in the machine's buffer. */
  ghost predicate Shown<T>(e: Env<T>, m: Mem, b: nat -> T) {
    forall k: Region, x: nat :: k in m ==> ByteShown(e, m[k], b, k, x)
  }

  ghost predicate ByteShown<T>(e: Env<T>, t: Term, b: nat -> T, k: Region, x: nat) {
    x < k.len && Known(e.r, t, x) ==> b(k.off + x) == Val(e, t, x)
  }

  lemma PutShown<T>(e: Env<T>, m: Mem, b: nat -> T, at: Region, t: Term, b': nat -> T)
    requires Shown(e, m, b) && Wrote(b, b', at) && forall x: nat :: ByteShown(e, t, b', at, x)
    ensures Shown(e, Put(m, at, t), b')
  {
    forall k: Region, x: nat | k in Put(m, at, t) ensures ByteShown(e, Put(m, at, t)[k], b', k, x) {
      if k != at { assert ByteShown(e, m[k], b, k, x); }
    }
  }

  /** What is read from an intact range. */
  lemma GetShown<T>(e: Env<T>, m: Mem, b: nat -> T, at: Region, x: nat)
    requires Shown(e, m, b)
    ensures ByteShown(e, Get(m, at), b, at, x)
  {
    if at in m { assert ByteShown(e, m[at], b, at, x); }
  }

  // ---- what users receive ------------------------------------------------------------------------

  /** Where slot o of chunk g goes in the users' memory. */
  function UserAt<T>(e: Env<T>, g: nat, o: nat): nat
    requires g < |e.r.chunks| == |e.calls| && o < |e.calls[g].col.rankOf|
  {
    var (ch, col) := (e.r.chunks[g], e.calls[g].col);
    ch.user + match ch.kind
              case AllReduce => Times(o, ch.pitch)
              case AllGather => Times(col.rankOf[o], col.dataSize)
              case ReduceScatter => 0
  }

  /** The bytes that chunk g writes there, for slot o or for all slots. */
  function UserArea<T>(e: Env<T>, g: nat, o: nat): Region
    requires g < |e.r.chunks| == |e.calls| && o < |e.calls[g].col.rankOf|
  {
    var ch := e.r.chunks[g];
    if ch.kind == AllReduce then Region(ch.user, ch.bytes) else Region(UserAt(e, g, o), ch.len)
  }

  /** Rank i of card c gets slot o. */
  predicate Gets<T>(kind: Kind, call: Call<T>, c: nat, o: nat, i: nat) {
    if kind == ReduceScatter then o == c && i == call.col.rankId else i < call.col.rankNum
  }

  ghost predicate Fits<T>(e: Env<T>, g: nat)
    requires g < |e.r.chunks| == |e.calls|
  {
    var ch := e.r.chunks[g];
    && ColumnOk(e.r.n, e.calls[g].col)
    && if ch.kind == AllReduce then ch.len == ch.pitch && ch.bytes <= Times(e.r.n, ch.pitch) else ch.len == ch.bytes
  }

  /** Chunks of one call write different bytes. */
  ghost predicate Apart<T>(e: Env<T>, g: nat, o: nat, h: nat, q: nat)
    requires g < |e.r.chunks| == |e.calls| && o < |e.calls[g].col.rankOf|
    requires h < |e.r.chunks| && q < |e.calls[h].col.rankOf|
  {
    e.calls[g].no == e.calls[h].no && (g != h || (Kinds(e.r, g) == AllGather && o != q)) ==>
      !Overlap(UserArea(e, g, o), UserArea(e, h, q))
  }

  ghost predicate Ok<T>(e: Env<T>) {
    && Valid(e.r) && |e.calls| == |e.r.chunks|
    && (forall g :: 0 <= g < |e.calls| ==> Fits(e, g))
    && (forall g: nat, o: nat, h: nat, q: nat ::
          g < |e.calls| && h < |e.calls| && Fits(e, g) && Fits(e, h) && o < e.r.n && q < e.r.n ==>
            Apart(e, g, o, h, q))
  }

  ghost predicate UserByte<T>(e: Env<T>, c: nat, user: map<(nat, nat), Term>, recv: (nat, nat, nat) -> T, g: nat,
      o: nat, i: nat, x: nat)
    requires Ok(e)
  {
    (g, o) in user && g < |e.calls| && Fits(e, g) && o < e.r.n && Gets(Kinds(e.r, g), e.calls[g], c, o, i)
    && x < e.r.chunks[g].len && Inside(e.r.chunks[g], o, x) && Known(e.r, user[(g, o)], x) ==>
      recv(e.calls[g].no, i, UserAt(e, g, o) + x) == Val(e, user[(g, o)], x)
  }

  ghost predicate UserShown<T>(e: Env<T>, c: nat, user: map<(nat, nat), Term>, recv: (nat, nat, nat) -> T)
    requires Ok(e)
  {
    forall g: nat, o: nat, i: nat, x: nat :: UserByte(e, c, user, recv, g, o, i, x)
  }

  // ---- the machine's state, byte by byte ----------------------------------------------------------

  ghost predicate CardShown<T>(e: Env<T>, s: State, w: World<T>, c: nat)
    requires Ok(e) && Shape(e.r, s) && Sized(e.r.n, w) && c < e.r.n
  {
    Shown(e, s.inb[c], w.inb[c]) && Shown(e, s.out[c], w.out[c]) && UserShown(e, c, s.user[c], w.recv[c])
  }

  ghost predicate Sim<T>(e: Env<T>, s: State, w: World<T>)
    requires Ok(e)
  {
    && Shape(e.r, s) && Sized(e.r.n, w) && s.data == w.data && s.ready == w.ready
    && forall c :: 0 <= c < e.r.n ==> CardShown(e, s, w, c)
  }

  /** What card c does at its present stage. */
  function Run1<T>(e: Env<T>, s: State, w: World<T>, c: nat): World<T>
    requires Ok(e) && At(e.r, s, c) && Sized(e.r.n, w)
  {
    var g := s.pc[c].g;
    assert Fits(e, g);
    ExecAll(e.r.n, w, c, e.calls[g], e.plus, Ops(e.r, e.calls[g].col, c, s.pc[c]))
  }

  /** A card's receive buffer changes in one range, and everything else stays. */
  lemma OutSim<T>(e: Env<T>, s: State, w: World<T>, s': State, w': World<T>, d: nat, at: Region, t: Term,
      b': nat -> T)
    requires Ok(e) && Sim(e, s, w) && Shape(e.r, s') && Sized(e.r.n, w') && d < e.r.n
    requires s'.out == s.out[d := Put(s.out[d], at, t)] && w'.out == w.out[d := b']
    requires s'.inb == s.inb && s'.user == s.user && w'.inb == w.inb && w'.recv == w.recv
    requires s'.data == w'.data && s'.ready == w'.ready
    requires Wrote(w.out[d], b', at) && forall x: nat :: ByteShown(e, t, b', at, x)
    ensures Sim(e, s', w')
  {
    forall c | 0 <= c < e.r.n ensures CardShown(e, s', w', c) {
      assert CardShown(e, s, w, c);
      if c == d { PutShown(e, s.out[d], w.out[d], at, t, b'); }
    }
  }

  lemma InSim<T>(e: Env<T>, s: State, w: World<T>, s': State, w': World<T>, d: nat, m': Mem, b': nat -> T)
    requires Ok(e) && Sim(e, s, w) && Shape(e.r, s') && Sized(e.r.n, w') && d < e.r.n
    requires s'.inb == s.inb[d := m'] && w'.inb == w.inb[d := b'] && Shown(e, m', b')
    requires s'.out == s.out && s'.user == s.user && w'.out == w.out && w'.recv == w.recv
    requires s'.data == w'.data && s'.ready == w'.ready
    ensures Sim(e, s', w')
  {
    forall c | 0 <= c < e.r.n ensures CardShown(e, s', w', c) { assert CardShown(e, s, w, c); }
  }

  lemma UserSim<T>(e: Env<T>, s: State, w: World<T>, s': State, w': World<T>, d: nat, u': map<(nat, nat), Term>,
      v': (nat, nat, nat) -> T)
    requires Ok(e) && Sim(e, s, w) && Shape(e.r, s') && Sized(e.r.n, w') && d < e.r.n
    requires s'.user == s.user[d := u'] && w'.recv == w.recv[d := v'] && UserShown(e, d, u', v')
    requires s'.inb == s.inb && s'.out == s.out && w'.inb == w.inb && w'.out == w.out
    requires s'.data == w'.data && s'.ready == w'.ready
    ensures Sim(e, s', w')
  {
    forall c | 0 <= c < e.r.n ensures CardShown(e, s', w', c) { assert CardShown(e, s, w, c); }
  }

  lemma SameSim<T>(e: Env<T>, s: State, w: World<T>, s': State, w': World<T>)
    requires Ok(e) && Sim(e, s, w) && Shape(e.r, s') && Sized(e.r.n, w')
    requires s'.inb == s.inb && s'.out == s.out && s'.user == s.user
    requires w'.inb == w.inb && w'.out == w.out && w'.recv == w.recv
    requires s'.data == w'.data && s'.ready == w'.ready
    ensures Sim(e, s', w')
  {
    forall c | 0 <= c < e.r.n ensures CardShown(e, s', w', c) { assert CardShown(e, s, w, c); }
  }

  // ---- stage by stage ---------------------------------------------------------------------------

  lemma FlagSim<T>(e: Env<T>, s: State, w: World<T>, c: nat)
    requires Ok(e) && Sim(e, s, w) && At(e.r, s, c) && Enabled(e.r, s, c)
    requires
      var st := s.pc[c].st;
      st.SetReady? || st.AwaitReady? || st.Flag? || st.Await?
    ensures Sim(e, Apply(e.r, s, c), Run1(e, s, w, c))
  {
    var g := s.pc[c].g;
    assert Fits(e, g);
    ExecOne(e.r.n, w, c, e.calls[g], e.plus, Ops(e.r, e.calls[g].col, c, s.pc[c])[0]);
    SameSim(e, s, w, Apply(e.r, s, c), Run1(e, s, w, c));
  }

  lemma PushSim<T>(e: Env<T>, s: State, w: World<T>, c: nat)
    requires Ok(e) && Sim(e, s, w) && At(e.r, s, c) && Enabled(e.r, s, c) && s.pc[c].st.Push?
    ensures Sim(e, Apply(e.r, s, c), Run1(e, s, w, c))
  {
    var Pc(g, Push(t)) := s.pc[c];
    var (ch, to) := (e.r.chunks[g], Next(e.r.n, c));
    assert Fits(e, g) && CardShown(e, s, w, c);
    var at := Range(e.r.n, ch, Back(e.r.n, c, t));
    ExecOne(e.r.n, w, c, e.calls[g], e.plus, PushOps(e.r.n, c, ch, t)[0]);
    var (m, b) := if t == 0 && ch.kind != AllGather then (s.inb[c], w.inb[c]) else (s.out[c], w.out[c]);
    var b' := Copied(w.out[to], at.off, at.len, b, at.off);
    forall x: nat ensures ByteShown(e, Outgoing(e.r, s, c, t), b', at, x) { GetShown(e, m, b, at, x); }
    OutSim(e, s, w, Apply(e.r, s, c), Run1(e, s, w, c), to, at, Outgoing(e.r, s, c, t), b');
  }

  lemma FoldSim<T>(e: Env<T>, s: State, w: World<T>, c: nat)
    requires Ok(e) && Sim(e, s, w) && At(e.r, s, c) && Enabled(e.r, s, c) && s.pc[c].st.Fold?
    requires s.pc[c].st.t < Folds(e.r.n, Kinds(e.r, s.pc[c].g))
    ensures Sim(e, Apply(e.r, s, c), Run1(e, s, w, c))
  {
    var Pc(g, Fold(t)) := s.pc[c];
    var ch := e.r.chunks[g];
    assert Fits(e, g) && CardShown(e, s, w, c);
    var at := Range(e.r.n, ch, Back(e.r.n, Prev(e.r.n, c), t));
    ExecOne(e.r.n, w, c, e.calls[g], e.plus, Combine(at));
    var b' := Combined(w.out[c], at, e.plus, w.inb[c], w.out[c]);
    var v := Node(Get(s.inb[c], at), Get(s.out[c], at));
    forall x: nat ensures ByteShown(e, v, b', at, x) {
      GetShown(e, s.inb[c], w.inb[c], at, x);
      GetShown(e, s.out[c], w.out[c], at, x);
    }
    OutSim(e, s, w, Apply(e.r, s, c), Run1(e, s, w, c), c, at, v, b');
  }

  // ---- loading ------------------------------------------------------------------------------------

  predicate InSlot(r: Ring, g: nat, o: nat, y: nat)
    requires g < |r.chunks| && o < r.n
  {
    var at := Range(r.n, r.chunks[g], o);
    at.off <= y < at.off + at.len
  }

  ghost predicate OldKey(r: Ring, g: nat, c: nat, m: Mem, k: nat, q: Region)
    requires g < |r.chunks| && k <= r.n
  {
    var image := Image(r, g, c, m, k);
    q in image && q in m && image[q] == m[q] && forall o :: 0 <= o < k ==> !Overlap(q, Range(r.n, r.chunks[g], o))
  }

  ghost predicate NewKey(r: Ring, g: nat, c: nat, m: Mem, k: nat, q: Region, o: nat)
    requires g < |r.chunks| && k <= r.n
  {
    var image := Image(r, g, c, m, k);
    o < k && q == Range(r.n, r.chunks[g], o) && q in image && image[q] == Leaf(c, g, SlotNo(r.n, Kinds(r, g), o))
  }

  lemma {:induction false} ImageKey(r: Ring, g: nat, c: nat, m: Mem, k: nat, q: Region) returns (o: nat)
    requires g < |r.chunks| && k <= r.n && q in Image(r, g, c, m, k)
    ensures NewKey(r, g, c, m, k, q, o) || OldKey(r, g, c, m, k, q)
    decreases k
  {
    o := 0;
    if k > 0 {
      if q == Range(r.n, r.chunks[g], k - 1) { o := k - 1; } else { o := ImageKey(r, g, c, m, k - 1, q); }
    }
  }

  /** A buffer shows the image of a chunk if every slot has its bytes and the rest is as before. */
  lemma ImageShown<T>(e: Env<T>, g: nat, c: nat, m: Mem, b: nat -> T, b': nat -> T)
    requires Ok(e) && g < |e.calls| && c < e.r.n && Shown(e, m, b)
    requires forall o: nat, x: nat :: o < e.r.n ==>
      ByteShown(e, Leaf(c, g, SlotNo(e.r.n, Kinds(e.r, g), o)), b', Range(e.r.n, e.r.chunks[g], o), x)
    requires forall y: nat :: b'(y) == b(y) || exists o: nat :: o < e.r.n && InSlot(e.r, g, o, y)
    ensures Shown(e, Image(e.r, g, c, m, e.r.n), b')
  {
    var image := Image(e.r, g, c, m, e.r.n);
    forall q: Region, x: nat | q in image ensures ByteShown(e, image[q], b', q, x) {
      var o := ImageKey(e.r, g, c, m, e.r.n, q);
      if !NewKey(e.r, g, c, m, e.r.n, q, o) {
        assert ByteShown(e, m[q], b, q, x);
      }
    }
  }

  /** A byte below the end of the last slot is in a slot, when slots leave no gaps. */
  lemma {:induction false} SomeSlot(pitch: nat, y: nat, k: nat) returns (o: nat)
    requires y < Times(k, pitch)
    ensures o < k && Times(o, pitch) <= y < Times(o, pitch) + pitch
    decreases k
  {
    if Times(k - 1, pitch) <= y { o := k - 1; } else { o := SomeSlot(pitch, y, k - 1); }
  }

  /** The card's ranks reduced into the half in use. */
  lemma LocalShown<T>(e: Env<T>, g: nat, c: nat, m: Mem, b: nat -> T)
    requires Ok(e) && g < |e.calls| && c < e.r.n && Shown(e, m, b) && Kinds(e.r, g) == AllReduce && Fits(e, g)
    ensures
      var (ch, call) := (e.r.chunks[g], e.calls[g]);
      Shown(e, Image(e.r, g, c, m, e.r.n),
            Copied(b, HalfBase(ch.half), ch.bytes, (u: nat) => Local(e.plus, call.col.rankNum, call.send, c, u),
                   ch.user))
  {
    var (ch, call) := (e.r.chunks[g], e.calls[g]);
    var b' := Copied(b, HalfBase(ch.half), ch.bytes, (u: nat) => Local(e.plus, call.col.rankNum, call.send, c, u),
                     ch.user);
    forall o: nat, x: nat | o < e.r.n ensures ByteShown(e, Leaf(c, g, o), b', Range(e.r.n, ch, o), x) { }
    forall y: nat | b'(y) != b(y) ensures exists o: nat :: o < e.r.n && InSlot(e.r, g, o, y) {
      var o := SomeSlot(ch.pitch, y - HalfBase(ch.half), e.r.n);
      assert InSlot(e.r, g, o, y);
    }
    ImageShown(e, g, c, m, b, b');
  }

  ghost predicate NumberedShown<T>(e: Env<T>, g: nat, c: nat, b: nat -> T, q: nat, x: nat)
    requires Ok(e) && g < |e.calls|
  {
    var ch := e.r.chunks[g];
    ByteShown(e, Leaf(c, g, q), b, Memory.Slot(HalfBase(ch.half), ch.pitch, ch.len, q), x)
  }

  ghost predicate SomeNumbered(ch: Chunk, k: nat, y: nat) {
    exists q: nat :: q < k && InNumbered(ch, q, y)
  }

  /** Slots that are loaded one by one: what they hold, and that the rest stays. */
  lemma {:induction false} ForCardsIs<T>(e: Env<T>, g: nat, c: nat, b: nat -> T, k: nat, b': nat -> T)
    requires Ok(e) && g < |e.calls| && c < e.r.n && k <= e.r.n && Kinds(e.r, g) == ReduceScatter && Fits(e, g)
    requires
      var ch := e.r.chunks[g];
      b' == ForCards(b, e.calls[g], e.plus, c, ch.user, ch.bytes, HalfBase(ch.half), ch.pitch, k)
    ensures forall q: nat, x: nat :: q < k ==> NumberedShown(e, g, c, b', q, x)
    ensures forall y: nat :: b'(y) == b(y) || SomeNumbered(e.r.chunks[g], k, y)
    decreases k
  {
    if k > 0 {
      var ch := e.r.chunks[g];
      var b1 := ForCards(b, e.calls[g], e.plus, c, ch.user, ch.bytes, HalfBase(ch.half), ch.pitch, k - 1);
      ForCardsIs(e, g, c, b, k - 1, b1);
      OneNumbered(e, g, c, b1, k - 1, b');
      MoreNumbered(e, g, c, b, k - 1, b1, b');
    }
  }

  lemma MoreNumbered<T>(e: Env<T>, g: nat, c: nat, b: nat -> T, k: nat, b1: nat -> T, b': nat -> T)
    requires Ok(e) && g < |e.calls| && Kinds(e.r, g) == ReduceScatter && Fits(e, g)
    requires forall q: nat, x: nat :: q < k ==> NumberedShown(e, g, c, b1, q, x)
    requires forall x: nat :: NumberedShown(e, g, c, b', k, x)
    requires forall y: nat :: b1(y) == b(y) || SomeNumbered(e.r.chunks[g], k, y)
    requires forall y: nat :: b'(y) == b1(y) || InNumbered(e.r.chunks[g], k, y)
    ensures forall q: nat, x: nat :: q < k + 1 ==> NumberedShown(e, g, c, b', q, x)
    ensures forall y: nat :: b'(y) == b(y) || SomeNumbered(e.r.chunks[g], k + 1, y)
  {
    var ch := e.r.chunks[g];
    forall q: nat, x: nat | q < k + 1 ensures NumberedShown(e, g, c, b', q, x) {
      if q < k {
        assert NumberedShown(e, g, c, b1, q, x);
        TimesStep(q, k, ch.pitch);
      }
    }
    forall y: nat | b'(y) != b(y) ensures SomeNumbered(ch, k + 1, y) {
      if b'(y) != b1(y) { assert InNumbered(ch, k, y); } else { assert SomeNumbered(ch, k, y); }
    }
  }

  /** The last slot. */
  lemma OneNumbered<T>(e: Env<T>, g: nat, c: nat, b: nat -> T, q: nat, b': nat -> T)
    requires Ok(e) && g < |e.calls| && c < e.r.n && q < e.r.n && Kinds(e.r, g) == ReduceScatter && Fits(e, g)
    requires
      var (ch, call) := (e.r.chunks[g], e.calls[g]);
      b' == Copied(b, HalfBase(ch.half) + Times(q, ch.pitch), ch.bytes,
                   (u: nat) => Local(e.plus, call.col.rankNum, call.send, c, u),
                   Times(call.col.rankOf[q], call.col.dataSize) + ch.user)
    ensures forall x: nat :: NumberedShown(e, g, c, b', q, x)
    ensures forall y: nat :: b'(y) == b(y) || InNumbered(e.r.chunks[g], q, y)
  {
  }

  predicate InNumbered(ch: Chunk, q: nat, y: nat) {
    var at := Memory.Slot(HalfBase(ch.half), ch.pitch, ch.len, q);
    at.off <= y < at.off + at.len
  }

  lemma ForCardsShown<T>(e: Env<T>, g: nat, c: nat, m: Mem, b: nat -> T)
    requires Ok(e) && g < |e.calls| && c < e.r.n && Kinds(e.r, g) == ReduceScatter && Shown(e, m, b) && Fits(e, g)
    ensures
      var ch := e.r.chunks[g];
      Shown(e, Image(e.r, g, c, m, e.r.n),
            ForCards(b, e.calls[g], e.plus, c, ch.user, ch.bytes, HalfBase(ch.half), ch.pitch, e.r.n))
  {
    var ch := e.r.chunks[g];
    var b' := ForCards(b, e.calls[g], e.plus, c, ch.user, ch.bytes, HalfBase(ch.half), ch.pitch, e.r.n);
    ForCardsIs(e, g, c, b, e.r.n, b');
    forall y: nat | b'(y) != b(y) ensures exists o: nat :: o < e.r.n && InSlot(e.r, g, o, y) {
      assert SomeNumbered(ch, e.r.n, y);
      var q: nat :| q < e.r.n && InNumbered(ch, q, y);
      assert SlotNo(e.r.n, ReduceScatter, Next(e.r.n, q)) == q;
      assert InSlot(e.r, g, Next(e.r.n, q), y);
    }
    forall o: nat, x: nat | o < e.r.n
      ensures ByteShown(e, Leaf(c, g, SlotNo(e.r.n, ReduceScatter, o)), b', Range(e.r.n, ch, o), x)
    {
      assert NumberedShown(e, g, c, b', Prev(e.r.n, o), x);
    }
    ImageShown(e, g, c, m, b, b');
  }

  /** Users' memory changes in some bytes of one call only. */
  ghost predicate WroteUsers<T>(v: (nat, nat, nat) -> T, v': (nat, nat, nat) -> T, call: nat, at: Region) {
    forall q: nat, i: nat, x: nat :: !(q == call && at.off <= x < at.off + at.len) ==> v'(q, i, x) == v(q, i, x)
  }

  /** What other chunks have given to users stays. */
  lemma UserKept<T>(e: Env<T>, c: nat, u: map<(nat, nat), Term>, v: (nat, nat, nat) -> T,
      u': map<(nat, nat), Term>, v': (nat, nat, nat) -> T, g: nat, o: nat, h: nat, q: nat, i: nat, x: nat)
    requires Ok(e) && UserShown(e, c, u, v) && g < |e.calls| && Fits(e, g) && o < e.r.n
    requires WroteUsers(v, v', e.calls[g].no, UserArea(e, g, o))
    requires (h, q) in u' ==> (h, q) in u && u'[(h, q)] == u[(h, q)]
    requires g != h || (Kinds(e.r, g) == AllGather && o != q)
    ensures UserByte(e, c, u', v', h, q, i, x)
  {
    assert UserByte(e, c, u, v, h, q, i, x);
    if h < |e.calls| && Fits(e, h) && q < e.r.n { assert Apart(e, g, o, h, q); }
  }

  /** Users get one block of a chunk. */
  lemma GiveBlock<T>(e: Env<T>, c: nat, u: map<(nat, nat), Term>, v: (nat, nat, nat) -> T, g: nat, o: nat, t: Term,
      v': (nat, nat, nat) -> T)
    requires Ok(e) && UserShown(e, c, u, v) && g < |e.calls| && Fits(e, g) && o < e.r.n && Kinds(e.r, g) != AllReduce
    requires Kinds(e.r, g) == ReduceScatter ==> o == c
    requires WroteUsers(v, v', e.calls[g].no, UserArea(e, g, o))
    requires forall i: nat, x: nat :: UserByte(e, c, map[(g, o) := t], v', g, o, i, x)
    ensures UserShown(e, c, u[(g, o) := t], v')
  {
    var u' := u[(g, o) := t];
    forall h: nat, q: nat, i: nat, x: nat ensures UserByte(e, c, u', v', h, q, i, x) {
      if h == g && q == o {
        assert UserByte(e, c, map[(g, o) := t], v', g, o, i, x);
      } else if h != g || Kinds(e.r, g) == AllGather {
        UserKept(e, c, u, v, u', v', g, o, h, q, i, x);
      }
    }
  }

  /** Users get a whole chunk of an AllReduce. */
  lemma GiveChunk<T>(e: Env<T>, c: nat, u: map<(nat, nat), Term>, v: (nat, nat, nat) -> T, g: nat, m: Mem,
      b: nat -> T, v': (nat, nat, nat) -> T)
    requires Ok(e) && UserShown(e, c, u, v) && g < |e.calls| && Fits(e, g) && Kinds(e.r, g) == AllReduce
    requires Shown(e, m, b) && v' == GivenChunk(e, v, g, b)
    ensures UserShown(e, c, u + AllSlots(e.r, g, m), v')
  {
    var u' := u + AllSlots(e.r, g, m);
    forall h: nat, q: nat, i: nat, x: nat ensures UserByte(e, c, u', v', h, q, i, x) {
      if h == g && q < e.r.n {
        GivenByte(e, c, u', v, g, m, b, q, i, x);
      } else if h != g {
        UserKept(e, c, u, v, u', v', g, 0, h, q, i, x);
      }
    }
  }

  function GivenChunk<T>(e: Env<T>, v: (nat, nat, nat) -> T, g: nat, b: nat -> T): (nat, nat, nat) -> T
    requires g < |e.r.chunks| == |e.calls|
  {
    var (ch, call) := (e.r.chunks[g], e.calls[g]);
    Given(v, call.no, 0, call.col.rankNum, ch.user, ch.bytes, b, HalfBase(ch.half))
  }

  lemma GivenByte<T>(e: Env<T>, c: nat, u': map<(nat, nat), Term>, v: (nat, nat, nat) -> T, g: nat, m: Mem,
      b: nat -> T, q: nat, i: nat, x: nat)
    requires Ok(e) && g < |e.calls| && Fits(e, g) && Kinds(e.r, g) == AllReduce && Shown(e, m, b) && q < e.r.n
    requires (g, q) in u' && u'[(g, q)] == Get(m, Range(e.r.n, e.r.chunks[g], q))
    ensures UserByte(e, c, u', GivenChunk(e, v, g, b), g, q, i, x)
  {
    GetShown(e, m, b, Range(e.r.n, e.r.chunks[g], q), x);
  }

  /** A card loads what its ranks have to reduce. */
  lemma LoadSim<T>(e: Env<T>, s: State, w: World<T>, c: nat)
    requires Ok(e) && Sim(e, s, w) && At(e.r, s, c) && Enabled(e.r, s, c) && s.pc[c].st.Load?
    requires Kinds(e.r, s.pc[c].g) != AllGather
    ensures Sim(e, Apply(e.r, s, c), Run1(e, s, w, c))
  {
    var g := s.pc[c].g;
    assert Fits(e, g) && CardShown(e, s, w, c);
    var (ch, call) := (e.r.chunks[g], e.calls[g]);
    var op := LoadOp(e, g);
    ExecTurn(e.r.n, w, c, call, e.plus, [op]);
    ExecOne(e.r.n, w, c, call, e.plus, op);
    var b' := Exec(e.r.n, w, c, call, e.plus, op).inb[c];
    LoadEffect(e, g, c, s.inb[c], w);
    InSim(e, s, w, Apply(e.r, s, c), Run1(e, s, w, c), c, Image(e.r, g, c, s.inb[c], e.r.n), b');
  }

  /** The operation that loads the chunk of a reduction. */
  function LoadOp<T>(e: Env<T>, g: nat): Op
    requires g < |e.r.chunks| == |e.calls|
  {
    var (ch, col) := (e.r.chunks[g], e.calls[g].col);
    if ch.kind == ReduceScatter then ReduceForCards(ch.user, ch.bytes, HalfBase(ch.half), ch.pitch)
    else if col.rankNum != 1 then ReduceLocal(ch.user, ch.bytes, HalfBase(ch.half))
    else MoveIn(ch.user, ch.bytes, HalfBase(ch.half))
  }

  lemma LoadEffect<T>(e: Env<T>, g: nat, c: nat, m: Mem, w: World<T>)
    requires Ok(e) && Sized(e.r.n, w) && g < |e.calls| && c < e.r.n && Shown(e, m, w.inb[c]) && Fits(e, g)
    requires Kinds(e.r, g) != AllGather
    ensures Shown(e, Image(e.r, g, c, m, e.r.n), Exec(e.r.n, w, c, e.calls[g], e.plus, LoadOp(e, g)).inb[c])
  {
    if Kinds(e.r, g) == ReduceScatter {
      ForCardsShown(e, g, c, m, w.inb[c]);
    } else {
      LocalShown(e, g, c, m, w.inb[c]);
      if e.calls[g].col.rankNum == 1 { OneRank(e, g, c, m, w); }
    }
  }

  /** The only rank of a card is its own reduction. */
  lemma OneRank<T>(e: Env<T>, g: nat, c: nat, m: Mem, w: World<T>)
    requires Ok(e) && Sized(e.r.n, w) && g < |e.calls| && c < e.r.n && Shown(e, m, w.inb[c]) && Fits(e, g)
    requires Kinds(e.r, g) == AllReduce && e.calls[g].col.rankNum == 1
    ensures Shown(e, Image(e.r, g, c, m, e.r.n), Exec(e.r.n, w, c, e.calls[g], e.plus, LoadOp(e, g)).inb[c])
  {
    LocalShown(e, g, c, m, w.inb[c]);
    var (ch, call, image) := (e.r.chunks[g], e.calls[g], Image(e.r, g, c, m, e.r.n));
    var b := Copied(w.inb[c], HalfBase(ch.half), ch.bytes,
                    (u: nat) => Local(e.plus, call.col.rankNum, call.send, c, u), ch.user);
    var b' := Exec(e.r.n, w, c, call, e.plus, LoadOp(e, g)).inb[c];
    forall k: Region, x: nat | k in image ensures ByteShown(e, image[k], b', k, x) {
      assert ByteShown(e, image[k], b, k, x);
    }
  }

  /** A card puts its own block where the next card gets it, and gives it to its users. */
  lemma GatherLoadSim<T>(e: Env<T>, s: State, w: World<T>, c: nat)
    requires Ok(e) && Sim(e, s, w) && At(e.r, s, c) && Enabled(e.r, s, c) && s.pc[c].st.Load?
    requires Kinds(e.r, s.pc[c].g) == AllGather
    ensures Sim(e, Apply(e.r, s, c), Run1(e, s, w, c))
  {
    var g := s.pc[c].g;
    assert Fits(e, g) && CardShown(e, s, w, c);
    var (ch, call) := (e.r.chunks[g], e.calls[g]);
    var (at, v) := (Range(e.r.n, ch, c), Leaf(c, g, c));
    var (move, give) := (MoveOut(ch.user, at), OwnToUsers(ch.user, ch.bytes, UserAt(e, g, c)));
    ExecTurn(e.r.n, w, c, call, e.plus, [move, give]);
    ExecTwo(e.r.n, w, c, call, e.plus, move, give);
    var (w1, s1) := (Exec(e.r.n, w, c, call, e.plus, move), s.(out := s.out[c := Put(s.out[c], at, v)]));
    OwnBlockOut(e, s, w, c, g);
    var w2 := Exec(e.r.n, w1, c, call, e.plus, give);
    OwnBlock(e, g, c, s.user[c], w1);
    UserSim(e, s1, w1, Apply(e.r, s, c), w2, c, s.user[c][(g, c) := v], w2.recv[c]);
  }

  lemma OwnBlockOut<T>(e: Env<T>, s: State, w: World<T>, c: nat, g: nat)
    requires Ok(e) && Sim(e, s, w) && g < |e.calls| && c < e.r.n && Fits(e, g) && Kinds(e.r, g) == AllGather
    ensures
      var (ch, at, v) := (e.r.chunks[g], Range(e.r.n, e.r.chunks[g], c), Leaf(c, g, c));
      Sim(e, s.(out := s.out[c := Put(s.out[c], at, v)]), Exec(e.r.n, w, c, e.calls[g], e.plus, MoveOut(ch.user, at)))
  {
    var (ch, at, v) := (e.r.chunks[g], Range(e.r.n, e.r.chunks[g], c), Leaf(c, g, c));
    var w1 := Exec(e.r.n, w, c, e.calls[g], e.plus, MoveOut(ch.user, at));
    forall x: nat ensures ByteShown(e, v, w1.out[c], at, x) { }
    OutSim(e, s, w, s.(out := s.out[c := Put(s.out[c], at, v)]), w1, c, at, v, w1.out[c]);
  }

  lemma OwnBlock<T>(e: Env<T>, g: nat, c: nat, u: map<(nat, nat), Term>, w: World<T>)
    requires Ok(e) && Sized(e.r.n, w) && g < |e.calls| && c < e.r.n && Fits(e, g) && Kinds(e.r, g) == AllGather
    requires UserShown(e, c, u, w.recv[c])
    ensures
      var (ch, call) := (e.r.chunks[g], e.calls[g]);
      UserShown(e, c, u[(g, c) := Leaf(c, g, c)],
                Exec(e.r.n, w, c, call, e.plus, OwnToUsers(ch.user, ch.bytes, UserAt(e, g, c))).recv[c])
  {
    var (ch, call) := (e.r.chunks[g], e.calls[g]);
    var v' := Exec(e.r.n, w, c, call, e.plus, OwnToUsers(ch.user, ch.bytes, UserAt(e, g, c))).recv[c];
    forall i: nat, x: nat ensures UserByte(e, c, map[(g, c) := Leaf(c, g, c)], v', g, c, i, x) { }
    GiveBlock(e, c, u, w.recv[c], g, c, Leaf(c, g, c), v');
  }

  /** Blocks that arrive in an AllGather go to the users; the last sends of the others are
      not followed by anything. */
  lemma GatherFoldSim<T>(e: Env<T>, s: State, w: World<T>, c: nat)
    requires Ok(e) && Sim(e, s, w) && At(e.r, s, c) && Enabled(e.r, s, c) && s.pc[c].st.Fold?
    requires s.pc[c].st.t >= Folds(e.r.n, Kinds(e.r, s.pc[c].g))
    ensures Sim(e, Apply(e.r, s, c), Run1(e, s, w, c))
  {
    var Pc(g, Fold(t)) := s.pc[c];
    assert Fits(e, g) && CardShown(e, s, w, c);
    var (ch, call, o) := (e.r.chunks[g], e.calls[g], Back(e.r.n, Prev(e.r.n, c), t));
    var (s2, w2) := (Apply(e.r, s, c), Run1(e, s, w, c));
    if ch.kind == AllGather {
      var at := Range(e.r.n, ch, o);
      var v := Get(s.out[c], at);
      ExecOne(e.r.n, w, c, call, e.plus, ToUsers(at, UserAt(e, g, o)));
      forall i: nat, x: nat ensures UserByte(e, c, map[(g, o) := v], w2.recv[c], g, o, i, x) {
        GetShown(e, s.out[c], w.out[c], at, x);
      }
      GiveBlock(e, c, s.user[c], w.recv[c], g, o, v, w2.recv[c]);
      UserSim(e, s, w, s2, w2, c, s2.user[c], w2.recv[c]);
    } else {
      SameSim(e, s, w, s2, w2);
    }
  }

  lemma CopySim<T>(e: Env<T>, s: State, w: World<T>, c: nat)
    requires Ok(e) && Sim(e, s, w) && At(e.r, s, c) && Enabled(e.r, s, c) && s.pc[c].st.CopyOut?
    ensures Sim(e, Apply(e.r, s, c), Run1(e, s, w, c))
  {
    var g := s.pc[c].g;
    assert Fits(e, g) && CardShown(e, s, w, c);
    var (s2, w2) := (Apply(e.r, s, c), Run1(e, s, w, c));
    match Kinds(e.r, g)
    case AllReduce =>
      ExecOne(e.r.n, w, c, e.calls[g], e.plus, CopyOps(e.r.n, c, e.r.chunks[g])[0]);
      GiveChunk(e, c, s.user[c], w.recv[c], g, s.out[c], w.out[c], w2.recv[c]);
      UserSim(e, s, w, s2, w2, c, s2.user[c], w2.recv[c]);
    case AllGather =>
      SameSim(e, s, w, s2, w2);
    case ReduceScatter =>
      ExecOne(e.r.n, w, c, e.calls[g], e.plus, CopyOps(e.r.n, c, e.r.chunks[g])[0]);
      OwnResult(e, s, w, c);
      UserSim(e, s, w, s2, w2, c, s2.user[c], w2.recv[c]);
  }

  lemma OwnResult<T>(e: Env<T>, s: State, w: World<T>, c: nat)
    requires Ok(e) && Sim(e, s, w) && At(e.r, s, c) && Enabled(e.r, s, c) && s.pc[c].st.CopyOut?
    requires Kinds(e.r, s.pc[c].g) == ReduceScatter && Fits(e, s.pc[c].g)
    ensures
      var x := CopyOps(e.r.n, c, e.r.chunks[s.pc[c].g])[0];
      UserShown(e, c, Apply(e.r, s, c).user[c], Exec(e.r.n, w, c, e.calls[s.pc[c].g], e.plus, x).recv[c])
  {
    var g := s.pc[c].g;
    assert CardShown(e, s, w, c);
    var at := Range(e.r.n, e.r.chunks[g], Next(e.r.n, c));
    var v := Node(Get(s.inb[c], at), Get(s.out[c], at));
    var v' := Exec(e.r.n, w, c, e.calls[g], e.plus, CopyOps(e.r.n, c, e.r.chunks[g])[0]).recv[c];
    forall i: nat, x: nat ensures UserByte(e, c, map[(g, c) := v], v', g, c, i, x) {
      GetShown(e, s.inb[c], w.inb[c], at, x);
      GetShown(e, s.out[c], w.out[c], at, x);
    }
    GiveBlock(e, c, s.user[c], w.recv[c], g, c, v, v');
  }

  /** A card that executes the operations of a stage does what the machine's card does. */
  lemma StageSim<T>(e: Env<T>, s: State, w: World<T>, c: nat)
    requires Ok(e) && Sim(e, s, w) && At(e.r, s, c) && Enabled(e.r, s, c)
    ensures Sim(e, Apply(e.r, s, c), Run1(e, s, w, c))
  {
    match s.pc[c].st
    case Load => if Kinds(e.r, s.pc[c].g) == AllGather { GatherLoadSim(e, s, w, c); } else { LoadSim(e, s, w, c); }
    case Push(_) => PushSim(e, s, w, c);
    case Fold(t) =>
      if t < Folds(e.r.n, Kinds(e.r, s.pc[c].g)) { FoldSim(e, s, w, c); } else { GatherFoldSim(e, s, w, c); }
    case CopyOut => CopySim(e, s, w, c);
    case _ => FlagSim(e, s, w, c);
  }

  // ---- whole runs of the streams ------------------------------------------------------------------

  /** Where every card is in its stream, and what the operations so far have done. */
  datatype Config<T> = Config(pc: seq<Pc>, w: World<T>)

  ghost predicate Busy<T>(e: Env<T>, k: Config<T>, c: nat)
    requires Ok(e)
  {
    && |k.pc| == e.r.n && Sized(e.r.n, k.w) && c < e.r.n
    && k.pc[c].g < |e.r.chunks| && PcOk(e.r, k.pc[c])
  }

  /** The operations of card c's present stage: with what is left after them, the rest of its
      stream (RingHost.StreamIsProgram). */
  function OpsAt<T>(e: Env<T>, k: Config<T>, c: nat): seq<Op>
    requires Ok(e) && Busy(e, k, c)
  {
    assert Fits(e, k.pc[c].g);
    Ops(e.r, e.calls[k.pc[c].g].col, c, k.pc[c])
  }

  /** No wait among the operations of the present stage holds card c up. */
  ghost predicate Free<T>(e: Env<T>, k: Config<T>, c: nat)
    requires Ok(e) && Busy(e, k, c)
  {
    forall i :: 0 <= i < |OpsAt(e, k, c)| ==> Passes(e.r.n, k.w, c, OpsAt(e, k, c)[i])
  }

  function After<T>(e: Env<T>, k: Config<T>, c: nat): Config<T>
    requires Ok(e) && Busy(e, k, c)
  {
    var xs := OpsAt(e, k, c);
    assert Fits(e, k.pc[c].g);
    Config(k.pc[c := Advance(e.r, k.pc[c])], ExecAll(e.r.n, k.w, c, e.calls[k.pc[c].g], e.plus, xs))
  }

  ghost predicate Goes<T>(e: Env<T>, k: Config<T>, k': Config<T>)
    requires Ok(e)
  {
    exists c: nat :: Busy(e, k, c) && Free(e, k, c) && k' == After(e, k, c)
  }

  /** Any buffer contents, any flags that the counters have reached. */
  ghost predicate Starts<T>(e: Env<T>, k: Config<T>)
    requires Ok(e)
  {
    && |k.pc| == e.r.n && Sized(e.r.n, k.w)
    && forall c :: 0 <= c < e.r.n ==>
         k.pc[c] == First(e.r, 0) && k.w.data[c] <= e.r.nextcnt && k.w.ready[c] <= e.r.prevcnt
  }

  ghost predicate StreamRun<T>(e: Env<T>, tr: seq<Config<T>>)
    requires Ok(e)
  {
    tr != [] && Starts(e, tr[0]) && forall i :: 0 < i < |tr| ==> Goes(e, tr[i - 1], tr[i])
  }

  lemma WaitsAgree<T>(e: Env<T>, s: State, k: Config<T>, c: nat)
    requires Ok(e) && Sim(e, s, k.w) && s.pc == k.pc && Busy(e, k, c)
    ensures At(e.r, s, c) && (Free(e, k, c) <==> Enabled(e.r, s, c))
    ensures Run1(e, s, k.w, c) == After(e, k, c).w
  {
    var (g, xs) := (k.pc[c].g, OpsAt(e, k, c));
    assert Fits(e, g);
    match k.pc[c].st
    case AwaitReady => assert xs[0] == WaitGeq(1, Shakes(e.r, g) + 1);
    case Await(t) => assert xs[0] == WaitGeq(0, Base(e.r, g) + t + 1);
    case _ =>
  }

  function Empty<T>(e: Env<T>, k: Config<T>): State {
    State(k.pc, k.w.data, k.w.ready, seq(e.r.n, _ => map[]), seq(e.r.n, _ => map[]), seq(e.r.n, _ => map[]))
  }

  /** Every run of the streams is a run of the machine, byte by byte. */
  lemma {:induction false} Simulated<T>(e: Env<T>, tr: seq<Config<T>>) returns (abs: seq<State>)
    requires Ok(e) && StreamRun(e, tr)
    ensures abs != [] && Run(e.r, abs) && abs[|abs| - 1].pc == tr[|tr| - 1].pc
    ensures Sim(e, abs[|abs| - 1], tr[|tr| - 1].w)
    decreases |tr|
  {
    if |tr| == 1 {
      abs := [Empty(e, tr[0])];
      forall c | 0 <= c < e.r.n ensures CardShown(e, abs[0], tr[0].w, c) { }
    } else {
      var (before, k) := (tr[..|tr| - 1], tr[|tr| - 2]);
      abs := Simulated(e, before);
      assert Goes(e, tr[|tr| - 2], tr[|tr| - 1]);
      var c: nat :| Busy(e, k, c) && Free(e, k, c) && tr[|tr| - 1] == After(e, k, c);
      var s := abs[|abs| - 1];
      WaitsAgree(e, s, k, c);
      StageSim(e, s, k.w, c);
      RunGrows(e.r, abs, c);
      abs := abs + [Apply(e.r, s, c)];
    }
  }

  lemma RunGrows(r: Ring, abs: seq<State>, c: nat)
    requires Valid(r) && abs != [] && Run(r, abs) && At(r, abs[|abs| - 1], c) && Enabled(r, abs[|abs| - 1], c)
    ensures Run(r, abs + [Apply(r, abs[|abs| - 1], c)])
  {
    var (s, longer) := (abs[|abs| - 1], abs + [Apply(r, abs[|abs| - 1], c)]);
    assert Step(r, s, Apply(r, s, c));
    forall i | 0 < i < |longer| ensures Step(r, longer[i - 1], longer[i]) {
      if i < |abs| { assert Step(r, abs[i - 1], abs[i]); }
    }
  }

  ghost predicate SomeoneFree<T>(e: Env<T>, k: Config<T>)
    requires Ok(e)
  {
    exists c: nat :: Busy(e, k, c) && Free(e, k, c)
  }

  /** As long as some card has operations left, no wait for a flag holds every card up. */
  lemma StreamsNeverBlock<T>(e: Env<T>, tr: seq<Config<T>>, d: nat)
    requires Ok(e) && StreamRun(e, tr) && d < e.r.n == |tr[|tr| - 1].pc| && tr[|tr| - 1].pc[d].g < |e.r.chunks|
    ensures SomeoneFree(e, tr[|tr| - 1])
  {
    var abs := Simulated(e, tr);
    var k := tr[|tr| - 1];
    var s := abs[|abs| - 1];
    RingNeverDeadlocks(e.r, abs, d);
    var c :| CanStep(e.r, s, c);
    assert Busy(e, k, c);
    WaitsAgree(e, s, k, c);
  }
}
