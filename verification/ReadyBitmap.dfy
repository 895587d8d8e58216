/** The bitmap over the ready queues, and the search of its lowest bit (kernel/task.c). */
module ReadyBitmap {
  import opened Types
  import opened TaskQueues

  /** PRIMAP_BIT(pri), the value of 1U << pri in 16 bits. */
  function PrimapBit(pri: nat): bv16
    requires pri < TNUM_TPRI
  {
    [0x1, 0x2, 0x4, 0x8, 0x10, 0x20, 0x40, 0x80, 0x100, 0x200, 0x400, 0x800, 0x1000, 0x2000, 0x4000, 0x8000][pri]
  }

  predicate HasBit(m: bv16, pri: nat)
    requires pri < TNUM_TPRI
  {
    Has(m, PrimapBit(pri))
  }

  predicate Has(m: bv16, b: bv16) { m & b != 0 }

  function Set(m: bv16, b: bv16): bv16 { m | b }

  function Clear(m: bv16, b: bv16): bv16 { m & !b }

  /** primap_set and primap_clear: the new value of the map. */
  function PrimapSet(m: bv16, pri: nat): bv16
    requires pri < TNUM_TPRI
  {
    Set(m, PrimapBit(pri))
  }

  function PrimapClear(m: bv16, pri: nat): bv16
    requires pri < TNUM_TPRI
  {
    Clear(m, PrimapBit(pri))
  }

  /** bitmap_search_table, indexed by the value of the low four bits, less one. */
  function LowBitOfNibble(x: bv16): nat
    requires 1 <= x <= 15
  {
    if x & 1 != 0 then 0 else if x & 2 != 0 then 1 else if x & 4 != 0 then 2 else 3
  }

  /** The table of the kernel is the position of the lowest bit. */
  lemma TableIsLowBit()
    ensures [LowBitOfNibble(1), LowBitOfNibble(2), LowBitOfNibble(3), LowBitOfNibble(4), LowBitOfNibble(5),
             LowBitOfNibble(6), LowBitOfNibble(7), LowBitOfNibble(8), LowBitOfNibble(9), LowBitOfNibble(10),
             LowBitOfNibble(11), LowBitOfNibble(12), LowBitOfNibble(13), LowBitOfNibble(14), LowBitOfNibble(15)]
         == [0, 1, 0, 2, 0, 1, 0, 3, 0, 1, 0, 2, 0, 1, 0]
  {
  }

  /** bitmap_search: two binary steps and a table. */
  method BitmapSearch(m: bv16) returns (n: nat)
    requires m != 0
    ensures n < TNUM_TPRI && HasBit(m, n) && forall p: nat :: p < n ==> !HasBit(m, p)
  {
    var bitmap := m;
    n := 0;
    if bitmap & 0x00ff == 0 {
      bitmap := bitmap >> 8;
      n := n + 8;
    }
    if bitmap & 0x0f == 0 {
      bitmap := bitmap >> 4;
      n := n + 4;
    }
    var k := LowBitOfNibble(bitmap & 0x0f);
    n := n + k;
  }

  /** Different priorities have different bits. */
  lemma BitsDistinct(pri: nat, p: nat)
    requires pri < TNUM_TPRI && p < TNUM_TPRI
    ensures PrimapBit(pri) & PrimapBit(p) == if pri == p then PrimapBit(p) else 0
    ensures PrimapBit(p) != 0
  {
  }

  lemma OrHas(m: bv16, a: bv16, b: bv16, same: bool)
    requires a & b == (if same then b else 0) && b != 0
    ensures Has(Set(m, a), b) <==> same || Has(m, b)
  {
    assert (m | a) & b == (m & b) | (a & b);
  }

  lemma ClearHas(m: bv16, a: bv16, b: bv16, same: bool)
    requires if same then a == b else a & b == 0
    ensures Has(Clear(m, a), b) <==> !same && Has(m, b)
  {
    if same { assert (m & !a) & a == 0; } else { assert (m & !a) & b == m & b; }
  }

  /** Setting and clearing a bit leave the others alone. */
  lemma SetBit(m: bv16, pri: nat, p: nat)
    requires pri < TNUM_TPRI && p < TNUM_TPRI
    ensures HasBit(PrimapSet(m, pri), p) <==> p == pri || HasBit(m, p)
  {
    hide PrimapBit, Has, Set, Clear;
    BitsDistinct(pri, p);
    OrHas(m, PrimapBit(pri), PrimapBit(p), p == pri);
  }

  lemma ClearBit(m: bv16, pri: nat, p: nat)
    requires pri < TNUM_TPRI && p < TNUM_TPRI
    ensures HasBit(PrimapClear(m, pri), p) <==> p != pri && HasBit(m, p)
  {
    hide PrimapBit, Has, Set, Clear;
    BitsDistinct(pri, p);
    ClearHas(m, PrimapBit(pri), PrimapBit(p), p == pri);
  }

  lemma NoBits(m: bv16)
    ensures m == 0 <==> forall p: nat :: p < TNUM_TPRI ==> !HasBit(m, p)
  {
    assert m == 0 || HasBit(m, 0) || HasBit(m, 1) || HasBit(m, 2) || HasBit(m, 3) || HasBit(m, 4) || HasBit(m, 5)
        || HasBit(m, 6) || HasBit(m, 7) || HasBit(m, 8) || HasBit(m, 9) || HasBit(m, 10) || HasBit(m, 11)
        || HasBit(m, 12) || HasBit(m, 13) || HasBit(m, 14) || HasBit(m, 15);
  }

  /** Bit p is set exactly when ready queue p is not empty. */
  ghost predicate Agrees(m: bv16, q: map<QId, seq<Tid>>) {
    forall p: nat :: p < TNUM_TPRI ==> (HasBit(m, p) <==> At(q, Ready(p)) != [])
  }
}
