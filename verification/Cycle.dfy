/** Neighbours on a cycle of `n` cards. */
module Cycle {
  function Next(n: nat, c: nat): (r: nat)
    requires c < n
    ensures r < n
  {
    if c + 1 == n then 0 else c + 1
  }

  function Prev(n: nat, c: nat): (r: nat)
    requires c < n
    ensures r < n
  {
    if c == 0 then n - 1 else c - 1
  }

  /** The card `k` places before `c`. */
  function Back(n: nat, c: nat, k: nat): (r: nat)
    requires c < n && k <= 2 * n
    ensures r < n
  {
    if k <= c then c - k else if k <= c + n then c + n - k else c + 2 * n - k
  }
}
