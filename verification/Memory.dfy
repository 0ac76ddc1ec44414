/** Byte ranges of a cross buffer, and what a buffer holds.

    Buffers are written a whole range at a time (by a device kernel or by a
    peer's push), so the contents of a buffer are the ranges whose last write
    is still intact.  A write keeps exactly the ranges it does not touch. */
module Memory {
  import opened Arith
  import opened Terms

  datatype Region = Region(off: nat, len: nat)

  predicate Overlap(a: Region, b: Region) {
    a.off < b.off + b.len && b.off < a.off + a.len
  }

  type Mem = map<Region, Term>

  function Put(m: Mem, r: Region, v: Term): Mem {
    (map k | k in m && !Overlap(k, r) :: m[k])[r := v]
  }

  /** Reading a range that is not intact yields `Junk`. */
  function Get(m: Mem, r: Region): Term {
    if r in m then m[r] else Junk
  }

  lemma PutKeeps(m: Mem, r: Region, v: Term, k: Region)
    requires k != r && !Overlap(k, r)
    ensures Get(Put(m, r, v), k) == Get(m, k)
  {
  }

  /** Slot `i` of an area that starts at `base` and holds slots `pitch` bytes
      apart, of which the first `len` bytes are used. */
  function Slot(base: nat, pitch: nat, len: nat, i: nat): Region {
    Region(base + Times(i, pitch), len)
  }

  lemma SlotsApart(base: nat, pitch: nat, len: nat, i: nat, j: nat)
    requires 0 < len <= pitch && i != j
    ensures !Overlap(Slot(base, pitch, len, i), Slot(base, pitch, len, j))
    ensures Slot(base, pitch, len, i) != Slot(base, pitch, len, j)
  {
    if i < j { TimesStep(i, j, pitch); } else { TimesStep(j, i, pitch); }
  }

  lemma SlotInArea(base: nat, pitch: nat, len: nat, i: nat, n: nat)
    requires i < n && len <= pitch
    ensures base <= Slot(base, pitch, len, i).off
    ensures Slot(base, pitch, len, i).off + len <= base + Times(n, pitch)
  {
    TimesStep(i, n, pitch);
  }
}
