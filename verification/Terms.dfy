/** Symbolic data.

    A value that travels through a collective is the expression that computed
    it, so an equality of terms states the exact bracketing and operand order of
    every reduction.  `Eval` interprets a term under any element operation. */
module Terms {
  datatype Term =
    | Junk                                       // contents nobody vouches for
    | Leaf(card: nat, chunk: nat, slot: nat)     // user data of one card
    | Node(left: Term, right: Term)              // left op right

  /** Evaluation under operation `op`, with `input` the value of each leaf. */
  function Eval<T>(t: Term, op: (T, T) -> T, input: (nat, nat, nat) -> T, junk: T): T {
    match t
    case Junk => junk
    case Leaf(c, g, s) => input(c, g, s)
    case Node(l, r) => op(Eval(l, op, input, junk), Eval(r, op, input, junk))
  }

  /** The device kernels reduce a list of blocks from left to right. */
  function FoldTerms(xs: seq<Term>): Term
    requires xs != []
  {
    if |xs| == 1 then xs[0] else Node(FoldTerms(xs[..|xs| - 1]), xs[|xs| - 1])
  }

  ghost predicate Regroups<T>(op: (T, T) -> T, x: T, y: T, z: T) {
    op(op(x, y), z) == op(x, op(y, z))
  }

  ghost predicate Swaps<T>(op: (T, T) -> T, x: T, y: T) {
    op(x, y) == op(y, x)
  }

  ghost predicate Associative<T(!new)>(op: (T, T) -> T) {
    forall x, y, z :: Regroups(op, x, y, z)
  }

  ghost predicate Commutative<T(!new)>(op: (T, T) -> T) {
    forall x, y :: Swaps(op, x, y)
  }

  /** What the cards 0 .. n-1 contribute to slot `slot` of chunk `g`. */
  function Inputs<T>(input: (nat, nat, nat) -> T, n: nat, g: nat, slot: nat): (xs: seq<T>)
    ensures |xs| == n && forall c :: 0 <= c < n ==> xs[c] == input(c, g, slot)
  {
    seq(n, c requires 0 <= c < n => input(c, g, slot))
  }

  /** The plain reduction: values k..n-1 folded in index order. */
  function Reduce<T>(op: (T, T) -> T, xs: seq<T>): T
    requires xs != []
  {
    if |xs| == 1 then xs[0] else op(Reduce(op, xs[..|xs| - 1]), xs[|xs| - 1])
  }

  lemma {:induction false} ReduceAppend<T(!new)>(op: (T, T) -> T, xs: seq<T>, ys: seq<T>)
    requires Associative(op) && xs != [] && ys != []
    ensures Reduce(op, xs + ys) == op(Reduce(op, xs), Reduce(op, ys))
    decreases |ys|
  {
    var zs := xs + ys;
    if |ys| == 1 {
      assert zs[..|zs| - 1] == xs;
    } else {
      assert zs[..|zs| - 1] == xs + ys[..|ys| - 1];
      ReduceAppend(op, xs, ys[..|ys| - 1]);
      assert Regroups(op, Reduce(op, xs), Reduce(op, ys[..|ys| - 1]), ys[|ys| - 1]);
    }
  }

  /** A reduction may start at any card of the ring. */
  lemma ReduceRotate<T(!new)>(op: (T, T) -> T, xs: seq<T>, k: nat)
    requires Associative(op) && Commutative(op) && xs != [] && k < |xs|
    ensures Reduce(op, xs[k..] + xs[..k]) == Reduce(op, xs)
  {
    if k == 0 {
      assert xs[k..] + xs[..k] == xs;
    } else {
      ReduceAppend(op, xs[k..], xs[..k]);
      ReduceAppend(op, xs[..k], xs[k..]);
      assert Swaps(op, Reduce(op, xs[k..]), Reduce(op, xs[..k]));
      assert xs[..k] + xs[k..] == xs;
    }
  }
}
