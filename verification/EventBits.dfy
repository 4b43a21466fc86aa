/** The 32 flags of an event group. */
module EventBits {
  datatype Mode = Any | All

  /** `event_condition_met`. */
  predicate Met(bits: bv32, mask: bv32, mode: Mode) {
    if mode.All? then bits & mask == mask else bits & mask != 0
  }

  /** `bits &= ~mask`. */
  function Without(bits: bv32, mask: bv32): bv32 {
    bits & !mask
  }

  /** `bits |= more`. */
  function With(bits: bv32, more: bv32): bv32 {
    bits | more
  }

  predicate IsBit(b: bv32) {
    b != 0 && b & (b - 1) == 0
  }

  /** `bits` and `b` have a flag in common. */
  predicate Has(bits: bv32, b: bv32) {
    bits & b != 0
  }

  /** A single flag of `mask` is gone once `mask` is cleared. */
  lemma ClearedBit(bits: bv32, less: bv32, mask: bv32, b: bv32)
    requires less == bits & !mask && b != 0 && b & (b - 1) == 0 && mask & b != 0
    ensures less & b == 0
  {
  }

  lemma WithoutFlag(bits: bv32, mask: bv32, b: bv32)
    requires IsBit(b) && Has(mask, b)
    ensures !Has(Without(bits, mask), b)
  {
    ClearedBit(bits, Without(bits, mask), mask, b);
  }

  lemma FewerHas(bits: bv32, gone: bv32, b: bv32)
    ensures Has(Without(bits, gone), b) ==> Has(bits, b)
  {
    FewerShared(bits, Without(bits, gone), gone, b);
  }

  lemma FewerShared(bits: bv32, less: bv32, gone: bv32, b: bv32)
    requires less == bits & !gone
    ensures less & b != 0 ==> bits & b != 0
  {
  }

  lemma OnlyFromSecond(x: bv32, y: bv32, u: bv32, b: bv32)
    requires u == x | y && y & b == 0 && u & b != 0
    ensures x & b != 0
  {
  }

  /** A flag that was not added was there before. */
  lemma WithHas(x: bv32, y: bv32, b: bv32)
    requires Has(With(x, y), b) && !Has(y, b)
    ensures Has(x, b)
  {
    OnlyFromSecond(x, y, With(x, y), b);
  }

  // ---- Flag by flag ----

  /** The condition of a waiter, said of single flags: some flag of its mask is there, or all are. */
  ghost predicate Wanted(bits: bv32, mask: bv32, mode: Mode) {
    match mode
    case Any => exists b: bv32 :: IsBit(b) && Has(mask, b) && Has(bits, b)
    case All => forall b: bv32 :: IsBit(b) && Has(mask, b) ==> Has(bits, b)
  }

  lemma LowestBit(x: bv32, b: bv32)
    requires x != 0 && b == x & (0 - x)
    ensures b != 0 && b & (b - 1) == 0 && x & b != 0
  {
  }

  /** Every word but 0 has a flag. */
  lemma SomeFlag(x: bv32) returns (b: bv32)
    requires x != 0
    ensures IsBit(b) && Has(x, b)
  {
    b := x & (0 - x);
    LowestBit(x, b);
  }

  lemma WholeBit(y: bv32, b: bv32)
    requires b != 0 && b & (b - 1) == 0 && y & b != 0
    ensures y & b == b
  {
  }

  lemma SharedBit(x: bv32, y: bv32, both: bv32, b: bv32)
    requires both == x & y && y & b == b
    ensures both & b == x & b
  {
  }

  lemma SharedShared(x: bv32, y: bv32, both: bv32, b: bv32)
    requires both == x & y && both & b != 0
    ensures x & b != 0 && y & b != 0
  {
  }

  lemma InBoth(x: bv32, y: bv32, b: bv32)
    requires IsBit(b) && Has(x, b) && Has(y, b)
    ensures Has(x & y, b)
  {
    WholeBit(y, b);
    SharedBit(x, y, x & y, b);
  }

  lemma FromBoth(x: bv32, y: bv32, b: bv32)
    requires Has(x & y, b)
    ensures Has(x, b) && Has(y, b)
  {
    SharedShared(x, y, x & y, b);
  }

  lemma KeptShared(x: bv32, y: bv32, less: bv32, b: bv32)
    requires less == x & !y && x & b != 0 && y & b == 0
    ensures less & b != 0
  {
  }

  lemma KeptHas(bits: bv32, mask: bv32, b: bv32)
    requires Has(bits, b) && !Has(mask, b)
    ensures Has(Without(bits, mask), b)
  {
    KeptShared(bits, mask, Without(bits, mask), b);
  }

  /** `bits &= ~mask` takes away the flags of `mask` and no others. */
  lemma WithoutFlags(bits: bv32, mask: bv32, b: bv32)
    requires IsBit(b)
    ensures Has(Without(bits, mask), b) <==> Has(bits, b) && !Has(mask, b)
  {
    hide Has, IsBit, Without;
    FewerHas(bits, mask, b);
    if Has(mask, b) {
      WithoutFlag(bits, mask, b);
    } else if Has(bits, b) {
      KeptHas(bits, mask, b);
    }
  }

  lemma MoreShared(x: bv32, y: bv32, u: bv32, b: bv32)
    requires u == x | y && x & b != 0
    ensures u & b != 0
  {
  }

  lemma MoreHas(x: bv32, y: bv32, b: bv32)
    requires Has(x, b)
    ensures Has(With(x, y), b)
  {
    MoreShared(x, y, With(x, y), b);
  }

  lemma WithSwaps(x: bv32, y: bv32)
    ensures With(x, y) == With(y, x)
  {
  }

  /** `bits |= more` adds the flags of `more` and no others. */
  lemma WithFlags(bits: bv32, more: bv32, b: bv32)
    ensures Has(With(bits, more), b) <==> Has(bits, b) || Has(more, b)
  {
    hide Has, With;
    if Has(With(bits, more), b) && !Has(more, b) {
      WithHas(bits, more, b);
    } else if Has(bits, b) {
      MoreHas(bits, more, b);
    } else if Has(more, b) {
      MoreHas(more, bits, b);
      WithSwaps(bits, more);
    }
  }

  lemma AllThere(bits: bv32, mask: bv32)
    requires Without(mask, bits) == 0
    ensures bits & mask == mask
  {
  }

  lemma NotAllThere(bits: bv32, mask: bv32)
    requires bits & mask == mask
    ensures Without(mask, bits) == 0
  {
  }

  lemma NoFlag(b: bv32)
    ensures !Has(0, b)
  {
  }

  lemma AnyWanted(bits: bv32, mask: bv32)
    ensures bits & mask != 0 <==> Wanted(bits, mask, Any)
  {
    hide Has, IsBit;
    if bits & mask != 0 {
      var b := SomeFlag(bits & mask);
      FromBoth(bits, mask, b);
    }
    if Wanted(bits, mask, Any) {
      var b: bv32 :| IsBit(b) && Has(mask, b) && Has(bits, b);
      InBoth(bits, mask, b);
      NoFlag(b);
    }
  }

  lemma AllWanted(bits: bv32, mask: bv32)
    ensures bits & mask == mask <==> Wanted(bits, mask, All)
  {
    hide Has, IsBit, Without;
    if Without(mask, bits) == 0 {
      AllThere(bits, mask);
    } else {
      if bits & mask == mask {
        NotAllThere(bits, mask);
      }
      var b := SomeFlag(Without(mask, bits));
      WithoutFlags(mask, bits, b);
    }
    forall b: bv32 | Without(mask, bits) == 0 && IsBit(b) && Has(mask, b) ensures Has(bits, b) {
      WithoutFlags(mask, bits, b);
      NoFlag(b);
    }
  }

  /** What `event_condition_met` computes is the waiter's condition. */
  lemma MetIsWanted(bits: bv32, mask: bv32, mode: Mode)
    ensures Met(bits, mask, mode) <==> Wanted(bits, mask, mode)
  {
    hide Wanted;
    AnyWanted(bits, mask);
    AllWanted(bits, mask);
  }

  /** Fewer flags never satisfy a condition that more flags do not. */
  lemma MetMonotone(bits: bv32, gone: bv32, mask: bv32, mode: Mode)
    requires Wanted(Without(bits, gone), mask, mode)
    ensures Wanted(bits, mask, mode)
  {
    hide Has, IsBit, Without;
    if mode.Any? {
      var b: bv32 :| IsBit(b) && Has(mask, b) && Has(Without(bits, gone), b);
      FewerHas(bits, gone, b);
    } else {
      forall b: bv32 | IsBit(b) && Has(mask, b) ensures Has(bits, b) {
        FewerHas(bits, gone, b);
      }
    }
  }
}
