/** tcclAlltoallv: a perfect pairing of the ranks in every step, the lower rank of a pair
    sending first, each transfer split into pieces (src/collectives/all_to_all.cc,
    src/collectives/sendrecv.cc, and the Send and Recv branches of src/enqueue.cc). */
module Alltoallv {
  import opened Arith
  import opened Rendezvous
  import Terms

  const MAX_SIZE: nat := 64 * 1024 * 1024

  // ---- the pairing ------------------------------------------------------------------

  /** With whom rank r works in step i. */
  function Meet(n: nat, r: nat, i: nat): (b: nat)
    requires r < n && i < n
    ensures b < n
  {
    if i <= r then n - 1 - r + i else i - 1 - r
  }

  lemma MeetIs(n: nat, r: nat, i: nat)
    requires r < n && i < n
    ensures (n - 1 - r + i) % n == Meet(n, r, i)
  {
    SmallMod(n, n - 1 - r + i);
  }

  /** In every step the peer's peer is the rank itself. */
  lemma MeetBack(n: nat, r: nat, i: nat)
    requires r < n && i < n
    ensures Meet(n, Meet(n, r, i), i) == r
  {
  }

  /** The step in which two ranks meet; a rank meets itself too. */
  function StepOf(n: nat, a: nat, b: nat): (i: nat)
    requires a < n && b < n
    ensures i < n
  {
    if a + b + 1 < n then a + b + 1 else a + b + 1 - n
  }

  /** Every two ranks meet in exactly one step. */
  lemma MeetOnce(n: nat, a: nat, b: nat, i: nat)
    requires a < n && b < n && i < n
    ensures Meet(n, a, i) == b <==> i == StepOf(n, a, b)
  {
  }

  // ---- pieces -------------------------------------------------------------------------

  /** Elements in a piece, at most; how many pieces there are from piece q on. */
  function PieceLen(count: nat, piece: nat, q: nat): nat {
    if Times(q + 1, piece) > count then (if Times(q, piece) < count then count - Times(q, piece) else 0) else piece
  }

  function PiecesFrom(count: nat, piece: nat, q: nat): nat
    requires piece > 0
    decreases count - Times(q, piece)
  {
    if Times(q, piece) >= count then 0 else 1 + PiecesFrom(count, piece, q + 1)
  }

  lemma {:induction false} PiecesFromIs(count: nat, piece: nat, q: nat, k: nat)
    requires piece > 0
    ensures k < PiecesFrom(count, piece, q) <==> Times(q + k, piece) < count
    decreases k
  {
    if k > 0 {
      PiecesFromIs(count, piece, q + 1, k - 1);
      TimesStep(q, q + k, piece);
    }
  }

  /** The bytes that piece q carries: `typelen` bytes an element, at q * MAX_SIZE. */
  predicate Carries(count: nat, piece: nat, typelen: nat, q: nat, x: nat) {
    Times(q, MAX_SIZE) <= x < Times(q, MAX_SIZE) + PieceLen(count, piece, q) * typelen
  }

  ghost predicate Carried(count: nat, piece: nat, typelen: nat, x: nat)
    requires piece > 0
  {
    exists q: nat :: q < PiecesFrom(count, piece, 0) && Carries(count, piece, typelen, q, x)
  }

  ghost predicate AllCarried(count: nat, piece: nat, typelen: nat)
    requires piece > 0
  {
    forall x: nat :: x < count * typelen ==> Carried(count, piece, typelen, x)
  }

  /** With pieces of MAX_SIZE / typelen elements, placed MAX_SIZE bytes apart, every byte is
      carried exactly when the element size divides MAX_SIZE or one piece is enough. */
  lemma PiecesCarryAll(count: nat, typelen: nat)
    requires 0 < typelen <= MAX_SIZE
    ensures MAX_SIZE / typelen > 0
    ensures AllCarried(count, MAX_SIZE / typelen, typelen) <==> MAX_SIZE % typelen == 0 || count <= MAX_SIZE / typelen
  {
    var piece := MAX_SIZE / typelen;
    assert MAX_SIZE == piece * typelen + MAX_SIZE % typelen;
    if piece == 0 { assert false; }
    if MAX_SIZE % typelen == 0 || count <= piece {
      forall x: nat | x < count * typelen
        ensures Carried(count, piece, typelen, x)
      {
        CarriedByOne(count, piece, typelen, x);
      }
    } else {
      LeftOut(count, piece, typelen);
    }
  }

  lemma CarriedByOne(count: nat, piece: nat, typelen: nat, x: nat)
    requires piece > 0 && typelen > 0 && x < count * typelen
    requires piece * typelen == MAX_SIZE || count <= piece
    ensures Carried(count, piece, typelen, x)
  {
    if count <= piece {
      assert Times(1, piece) == piece && Times(0, piece) == 0;
      PiecesFromIs(count, piece, 0, 0);
      if count == 0 { assert false; }
      assert PieceLen(count, piece, 0) == count;
      assert Carries(count, piece, typelen, 0, x);
    } else {
      var q := x / MAX_SIZE;
      InPiece(count, piece, typelen, x, q);
      PiecesFromIs(count, piece, 0, q);
      assert Carries(count, piece, typelen, q, x);
    }
  }

  lemma InPiece(count: nat, piece: nat, typelen: nat, x: nat, q: nat)
    requires typelen > 0 && piece * typelen == MAX_SIZE && x < count * typelen && q == x / MAX_SIZE
    ensures Times(q, piece) < count && Carries(count, piece, typelen, q, x)
  {
    TimesIs(q, MAX_SIZE);
    TimesIs(q, piece);
    TimesIs(q + 1, piece);
    var done := q * piece;
    assert q * MAX_SIZE == done * typelen by { assert q * (piece * typelen) == (q * piece) * typelen; }
    assert x == q * MAX_SIZE + x % MAX_SIZE;
    if count <= done { SmallerProduct(count, done, typelen); }
    assert (q + 1) * piece == done + piece;
    if done + piece > count {
      assert (count - done) * typelen == count * typelen - done * typelen;
    }
  }

  lemma SmallerProduct(a: nat, b: nat, n: nat)
    requires a <= b
    ensures a * n <= b * n
  {
  }

  lemma LeftOut(count: nat, piece: nat, typelen: nat)
    requires 0 < piece < count && typelen > 0 && piece * typelen < MAX_SIZE
    ensures !AllCarried(count, piece, typelen)
  {
    var x := piece * typelen;
    MulStep(piece, count, typelen);
    assert x < count * typelen;
    forall q: nat ensures !Carries(count, piece, typelen, q, x) {
      if q == 0 {
        assert Times(1, piece) == piece && Times(0, piece) == 0;
      } else {
        TimesStep(0, q, MAX_SIZE);
      }
    }
    assert !Carried(count, piece, typelen, x);
  }

  // ---- the schedule as slots -------------------------------------------------------------

  /** pieces[a][b] is how many pieces a has for b; a step is `width` slots wide. */
  ghost predicate PlanOk(n: nat, pieces: seq<seq<nat>>, width: nat) {
    && |pieces| == n
    && (forall a :: 0 <= a < n ==> |pieces[a]| == n)
    && (forall a, b :: 0 <= a < n && 0 <= b < n ==> pieces[a][b] + pieces[b][a] <= width)
  }

  /** What rank r does in slot j of step i: first the lower rank of the pair sends. */
  function RoleIn(n: nat, pieces: seq<seq<nat>>, width: nat, i: nat, j: nat, r: nat): Role
    requires PlanOk(n, pieces, width) && r < n && i < n
  {
    var b := Meet(n, r, i);
    if b == r then Idle
    else
      var (lo, hi) := (if r < b then r else b, if r < b then b else r);
      var first := pieces[lo][hi];
      if j < first then (if r == lo then Send(b, j) else Recv(b, j))
      else if j < first + pieces[hi][lo] then (if r == hi then Send(b, j - first) else Recv(b, j - first))
      else Idle
  }

  function Roles(n: nat, pieces: seq<seq<nat>>, width: nat, i: nat, j: nat): (roles: seq<Role>)
    requires PlanOk(n, pieces, width) && i < n
    ensures |roles| == n && forall r :: 0 <= r < n ==> roles[r] == RoleIn(n, pieces, width, i, j, r)
  {
    seq(n, r requires 0 <= r < n => RoleIn(n, pieces, width, i, j, r))
  }

  /** The slots of step i. */
  function StepSlots(n: nat, pieces: seq<seq<nat>>, width: nat, i: nat): (slots: seq<seq<Role>>)
    requires PlanOk(n, pieces, width) && i < n
    ensures |slots| == width && forall j :: 0 <= j < width ==> slots[j] == Roles(n, pieces, width, i, j)
  {
    seq(width, j requires 0 <= j < width => Roles(n, pieces, width, i, j))
  }

  /** Steps i and later. */
  function CallSlots(n: nat, pieces: seq<seq<nat>>, width: nat, i: nat): seq<seq<Role>>
    requires PlanOk(n, pieces, width) && i <= n
    decreases n - i
  {
    if i == n then [] else StepSlots(n, pieces, width, i) + CallSlots(n, pieces, width, i + 1)
  }

  lemma RolesMatch(n: nat, pieces: seq<seq<nat>>, width: nat, i: nat, j: nat)
    requires PlanOk(n, pieces, width) && i < n
    ensures SlotOk(n, Roles(n, pieces, width, i, j))
  {
    forall r | 0 <= r < n ensures RoleOk(n, Roles(n, pieces, width, i, j), r) { MeetBack(n, r, i); }
  }

  /** The schedule of a call is a valid program for the ranks of Rendezvous, whatever the
      numbers of ranks and pieces: no deadlock, one writer, everything delivered. */
  lemma {:induction false} ScheduleMatches(n: nat, pieces: seq<seq<nat>>, width: nat, i: nat)
    requires PlanOk(n, pieces, width) && i <= n
    ensures forall k :: 0 <= k < |CallSlots(n, pieces, width, i)| ==> SlotOk(n, CallSlots(n, pieces, width, i)[k])
    decreases n - i
  {
    if i < n {
      forall j | 0 <= j < width
        ensures SlotOk(n, StepSlots(n, pieces, width, i)[j])
      {
        RolesMatch(n, pieces, width, i, j);
      }
      ScheduleMatches(n, pieces, width, i + 1);
    }
  }

  // ---- every piece is delivered -------------------------------------------------------------

  lemma {:induction false} SlotOfCall(n: nat, pieces: seq<seq<nat>>, width: nat, first: nat, i: nat, t: nat)
      returns (k: nat)
    requires PlanOk(n, pieces, width) && first <= i < n && t < width
    ensures k < |CallSlots(n, pieces, width, first)|
      && CallSlots(n, pieces, width, first)[k] == Roles(n, pieces, width, i, t)
    decreases i - first
  {
    if first == i {
      k := t;
    } else {
      k := SlotOfCall(n, pieces, width, first + 1, i, t);
      k := k + width;
    }
  }

  /** Every piece q that a rank a has for a rank b has a slot. */
  lemma SlotOfPiece(n: nat, pieces: seq<seq<nat>>, width: nat, a: nat, b: nat, q: nat) returns (k: nat)
    requires PlanOk(n, pieces, width) && a < n && b < n && a != b && q < pieces[a][b]
    ensures k < |CallSlots(n, pieces, width, 0)| && |CallSlots(n, pieces, width, 0)[k]| == n
    ensures CallSlots(n, pieces, width, 0)[k][a] == Send(b, q) && CallSlots(n, pieces, width, 0)[k][b] == Recv(a, q)
  {
    var i := StepOf(n, a, b);
    MeetOnce(n, a, b, i);
    MeetOnce(n, b, a, i);
    var t := if a < b then q else pieces[b][a] + q;
    assert t < pieces[a][b] + pieces[b][a] <= width;
    k := SlotOfCall(n, pieces, width, 0, i, t);
    assert Roles(n, pieces, width, i, t)[a] == Send(b, q);
  }

  /** When a run is over, rank b has received every piece q that any rank a had for it, from
      the slot in which a sent it. */
  lemma AlltoallvDelivers(p: Exchange, tr: seq<State>, pieces: seq<seq<nat>>, width: nat, a: nat, b: nat, q: nat)
      returns (k: nat)
    requires PlanOk(p.n, pieces, width) && p.slots == CallSlots(p.n, pieces, width, 0) && Valid(p) && Run(p, tr)
    requires a < p.n && b < p.n && a != b && q < pieces[a][b] && tr[|tr| - 1].pc[b].k == |p.slots|
    ensures k < |p.slots| && p.slots[k][a] == Send(b, q) && p.slots[k][b] == Recv(a, q)
    ensures k in tr[|tr| - 1].user[b] && tr[|tr| - 1].user[b][k] == Terms.Leaf(a, k, b)
  {
    k := SlotOfPiece(p.n, pieces, width, a, b, q);
    RendezvousDelivers(p, tr, b, k);
  }
}
