/** Two flags that numbers are written to in turn and waited for with equality: tcclSendRecvNotify
    and tcclSendRecvWait of src/misc/barrier.cc. */
module TwoSlots {
  const SYNC_NUM: nat := 2

  function SetFlag(flags: seq<nat>, q: nat, v: nat): (r: seq<nat>)
    requires q < |flags|
    ensures |r| == |flags|
  {
    flags[q := v]
  }

  function Put(slots: seq<seq<nat>>, a: nat, v: nat): (r: seq<seq<nat>>)
    requires a < |slots| && |slots[a]| == SYNC_NUM
    ensures |r| == |slots|
  {
    slots[a := SetFlag(slots[a], v % SYNC_NUM, v)]
  }

  /** After `done` notifications the flags show the last two. */
  predicate FlagsShow(flags: seq<nat>, done: nat, last: nat) {
    && |flags| == SYNC_NUM && done <= last
    && flags[0] <= last && flags[1] <= last
    && (done >= 1 ==> flags[last % SYNC_NUM] == last)
    && (done >= 2 ==> flags[(last - 1) % SYNC_NUM] == last - 1)
  }

  /** With at most two outstanding, the flag of its parity equals v exactly when v was sent. */
  lemma FlagExact(flags: seq<nat>, base: nat, done: nat, v: nat)
    requires FlagsShow(flags, done, base + done) && base < v && base + done <= v + 1
    ensures flags[v % SYNC_NUM] == v <==> v <= base + done
  {
  }

  /** A new notification goes to the flag of the one before the last. */
  lemma OneMore(flags: seq<nat>, last: nat, done: nat)
    requires FlagsShow(flags, done, last)
    ensures FlagsShow(SetFlag(flags, (last + 1) % SYNC_NUM, last + 1), done + 1, last + 1)
  {
  }
}
