/** Memory byte by byte.

    The machines of the collectives move symbolic blocks.  Here the stream operations
    themselves are executed, each from its own arguments, on buffers that hold a value
    for every byte.  A value is of any type; a reduction combines values pointwise, as it
    does for elements that do not straddle the ranges in use. */
module Bytes {
  import opened Memory
  import opened Terms

  /** `len` bytes of `from`, beginning at `src`, written at `at`. */
  function Copied<T>(to: nat -> T, at: nat, len: nat, from: nat -> T, src: nat): nat -> T {
    (x: nat) => if at <= x < at + len then from(x - at + src) else to(x)
  }

  /** The same bytes of two buffers, combined, written into a third. */
  function Combined<T>(to: nat -> T, at: Region, plus: (T, T) -> T, a: nat -> T, b: nat -> T): nat -> T {
    (x: nat) => if at.off <= x < at.off + at.len then plus(a(x), b(x)) else to(x)
  }

  /** The memory of users, by call, rank of the card and byte: ranks first .. last - 1 get
      `len` bytes of `from` at `at`. */
  function Given<T>(users: (nat, nat, nat) -> T, call: nat, first: nat, last: nat, at: nat, len: nat,
      from: nat -> T, src: nat): (nat, nat, nat) -> T {
    (q: nat, i: nat, x: nat) =>
      if q == call && first <= i < last && at <= x < at + len then from(x - at + src) else users(q, i, x)
  }

  /** What the ranks of one card have at a byte, reduced from left to right. */
  function Local<T>(plus: (T, T) -> T, ranks: nat, send: (nat, nat, nat) -> T, c: nat, u: nat): T
    requires ranks > 0
  {
    Reduce(plus, seq(ranks, i requires 0 <= i < ranks => send(c, i, u)))
  }

  /** One range is written; the rest stays. */
  ghost predicate Wrote<T>(b: nat -> T, b': nat -> T, at: Region) {
    forall y: nat :: !(at.off <= y < at.off + at.len) ==> b'(y) == b(y)
  }

  // ---- symbolic blocks ------------------------------------------------------------------------

  /** Nothing in a block is unaccounted for. */
  predicate Clean(t: Term) {
    match t
    case Junk => false
    case Leaf(_, _, _) => true
    case Node(a, b) => Clean(a) && Clean(b)
  }

  function Evals<T>(xs: seq<Term>, plus: (T, T) -> T, input: (nat, nat, nat) -> T, junk: T): (ys: seq<T>)
    ensures |ys| == |xs| && forall j :: 0 <= j < |xs| ==> ys[j] == Eval(xs[j], plus, input, junk)
  {
    seq(|xs|, j requires 0 <= j < |xs| => Eval(xs[j], plus, input, junk))
  }

  /** A fold of blocks stands for the fold of what they stand for. */
  lemma {:induction false} EvalFold<T>(xs: seq<Term>, plus: (T, T) -> T, input: (nat, nat, nat) -> T, junk: T)
    requires xs != []
    ensures Eval(FoldTerms(xs), plus, input, junk) == Reduce(plus, Evals(xs, plus, input, junk))
    ensures Clean(FoldTerms(xs)) <==> forall j :: 0 <= j < |xs| ==> Clean(xs[j])
    decreases |xs|
  {
    if |xs| > 1 {
      var front := xs[..|xs| - 1];
      EvalFold(front, plus, input, junk);
      assert Evals(xs, plus, input, junk)[..|xs| - 1] == Evals(front, plus, input, junk);
      assert forall j :: 0 <= j < |front| ==> front[j] == xs[j];
    }
  }
}
