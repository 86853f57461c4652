/**
  The bit operations of the puzzle stages (`test_bit_on32`, `set_bit_on32`,
  `set_bit_off32`) on a mask read as a natural number, and its population
  count. Bits are numbered from 1, as in the source.
 */
module BitMask {

  predicate TestBit(mask: nat, pos: nat)
    requires pos >= 1
    decreases pos
  {
    if pos == 1 then mask % 2 == 1 else TestBit(mask / 2, pos - 1)
  }

  function SetOn(mask: nat, pos: nat): nat
    requires pos >= 1
    decreases pos
  {
    if pos == 1 then mask - mask % 2 + 1 else 2 * SetOn(mask / 2, pos - 1) + mask % 2
  }

  function SetOff(mask: nat, pos: nat): nat
    requires pos >= 1
    decreases pos
  {
    if pos == 1 then mask - mask % 2 else 2 * SetOff(mask / 2, pos - 1) + mask % 2
  }

  /** Number of set bits. */
  function PopCount(mask: nat): nat {
    if mask == 0 then 0 else mask % 2 + PopCount(mask / 2)
  }

  function Power2(n: nat): (p: nat)
    ensures p >= 1
  {
    if n == 0 then 1 else 2 * Power2(n - 1)
  }

  /** Setting a clear bit adds one to the population and touches no other bit. */
  lemma {:induction false} SetOnEffect(mask: nat, pos: nat, other: nat)
    requires pos >= 1 && other >= 1
    ensures TestBit(SetOn(mask, pos), other) == (other == pos || TestBit(mask, other))
    ensures PopCount(SetOn(mask, pos)) == PopCount(mask) + (if TestBit(mask, pos) then 0 else 1)
    decreases pos
  {
    var m := SetOn(mask, pos);
    assert m % 2 + PopCount(m / 2) == PopCount(m);
    if pos == 1 {
      assert m / 2 == mask / 2 && m % 2 == 1;
    } else {
      assert m / 2 == SetOn(mask / 2, pos - 1) && m % 2 == mask % 2;
      SetOnEffect(mask / 2, pos - 1, if other == 1 then 1 else other - 1);
    }
  }

  /** Clearing a set bit takes one from the population and touches no other bit. */
  lemma {:induction false} SetOffEffect(mask: nat, pos: nat, other: nat)
    requires pos >= 1 && other >= 1
    ensures TestBit(SetOff(mask, pos), other) == (other != pos && TestBit(mask, other))
    ensures PopCount(SetOff(mask, pos)) == PopCount(mask) - (if TestBit(mask, pos) then 1 else 0)
    decreases pos
  {
    var m := SetOff(mask, pos);
    if pos == 1 {
      assert m / 2 == mask / 2 && m % 2 == 0;
    } else {
      assert m / 2 == SetOff(mask / 2, pos - 1) && m % 2 == mask % 2;
      SetOffEffect(mask / 2, pos - 1, if other == 1 then 1 else other - 1);
    }
  }

  /** A mask is zero exactly when no bit is set. */
  lemma {:induction false} ZeroIffEmpty(mask: nat)
    ensures mask == 0 <==> PopCount(mask) == 0
    decreases mask
  {
    if mask > 0 {
      ZeroIffEmpty(mask / 2);
    }
  }

  /** Setting bits 1..n keeps the mask below 2^n, so it fits the source's 32 bits. */
  lemma {:induction false} SetOnFits(mask: nat, pos: nat, n: nat)
    requires 1 <= pos <= n && mask < Power2(n)
    ensures SetOn(mask, pos) < Power2(n) && SetOff(mask, pos) < Power2(n)
    decreases pos
  {
    if pos > 1 {
      SetOnFits(mask / 2, pos - 1, n - 1);
    }
  }
}
