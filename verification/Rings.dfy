/** Ring buffers: a run of an array that wraps around at its end. */
module Rings {

  /** The index k places behind h in a ring of n entries. */
  function Slot(h: nat, k: nat, n: nat): (s: nat)
    requires h < n && k <= n
    ensures s < n
  {
    if h + k < n then h + k else h + k - n
  }

  /** The c entries from h on. */
  function Run<T>(a: seq<T>, h: nat, c: nat): (s: seq<T>)
    requires c <= |a| && (c > 0 ==> h < |a|)
    ensures |s| == c
  {
    seq(c, k requires 0 <= k < c => a[Slot(h, k, |a|)])
  }

  lemma RunAppend<T>(a: seq<T>, h: nat, c: nat, x: T)
    requires h < |a| && c < |a|
    ensures Run(a[Slot(h, c, |a|) := x], h, c + 1) == Run(a, h, c) + [x]
  {
  }

  lemma RunDrop<T>(a: seq<T>, h: nat, c: nat)
    requires h < |a| && 0 < c <= |a|
    ensures Run(a, Slot(h, 1, |a|), c - 1) == Run(a, h, c)[1..] && Run(a, h, c)[0] == a[h]
  {
  }

  /** In a full ring the newest entry takes the place of the oldest. */
  lemma RunReplace<T>(a: seq<T>, h: nat, x: T)
    requires h < |a|
    ensures Run(a[h := x], Slot(h, 1, |a|), |a|) == Run(a, h, |a|)[1..] + [x]
  {
  }

  /** How the kernel advances an index. */
  lemma Advance(h: nat, n: nat)
    requires h < n
    ensures Slot(h, 1, n) == if h + 1 >= n then 0 else h + 1
  {
  }

  lemma SlotNext(h: nat, c: nat, n: nat)
    requires h < n && c < n
    ensures Slot(h, c, n) < n && Slot(Slot(h, c, n), 1, n) == Slot(h, c + 1, n)
    ensures c > 0 ==> Slot(Slot(h, 1, n), c - 1, n) == Slot(h, c, n)
  {
  }
}
