/*
 * What the key-scale attenuation promises to the operator's attenuation
 * sum: exact table values at block 7, 8 units (6 dB) less per lower
 * block, never below 0 and never above the table's maximum, and more
 * attenuation for higher notes, whether they are higher by octave or by
 * frequency number.
 */
module KeyScaleProperties {
  import opened KeyScale

  /** The block-7 table rises with the frequency number. */
  lemma TableSorted()
    ensures forall i, j | 0 <= i <= j < 16 :: FnumToAtten[i] <= FnumToAtten[j]
  {
    forall i, j | 0 <= i <= j < 16
      ensures FnumToAtten[i] <= FnumToAtten[j]
    {
      TableStepUp(i, j);
    }
  }

  /** One comparison of two table entries, proved by walking up from the
      lower index one entry at a time. */
  lemma {:induction false} TableStepUp(i: nat, j: nat)
    requires i <= j < 16
    ensures FnumToAtten[i] <= FnumToAtten[j]
    decreases j - i
  {
    if i < j {
      assert FnumToAtten[j - 1] < FnumToAtten[j];
      TableStepUp(i, j - 1);
    }
  }

  /** At block 7 (`7 ^ 7 == 0`) nothing is subtracted: the result is the
      table entry itself. */
  lemma Block7IsTableEntry(fnum4msb: uint32)
    requires fnum4msb < 16
    ensures OplKeyScaleAtten(7, fnum4msb) == FnumToAtten[fnum4msb]
  {
    TableInRange(fnum4msb);
  }

  /** The result lies between 0 and the block-7 entry, hence never above
      MaxAtten (56 units, 42 dB). */
  lemma ResultBounded(block: uint32, fnum4msb: uint32)
    requires block < 8 && fnum4msb < 16
    ensures 0 <= OplKeyScaleAtten(block, fnum4msb) <= FnumToAtten[fnum4msb] <= MaxAtten
  {
    TableInRange(fnum4msb);
  }

  /** The clamp takes effect exactly when the blocks below 7 take away at
      least the whole table entry. */
  lemma ZeroExactlyWhenClamped(block: uint32, fnum4msb: uint32)
    requires block < 8 && fnum4msb < 16
    ensures OplKeyScaleAtten(block, fnum4msb) == 0
            <==> FnumToAtten[fnum4msb] <= 8 * (7 - block)
  {
  }

  /** Each block below 7 takes 8 units (6 dB) off the next block's value,
      down to 0. */
  lemma OneBlockLower(block: uint32, fnum4msb: uint32)
    requires block < 7 && fnum4msb < 16
    ensures OplKeyScaleAtten(block, fnum4msb)
            == Max(0, OplKeyScaleAtten(block + 1, fnum4msb) - 8)
  {
  }

  /** The bit-level computation agrees, on every 3-bit block, with the
      table's description of lower blocks as repeated 8-unit steps down. */
  lemma MatchesStepwise(block: uint32, fnum4msb: uint32)
    requires block < 8 && fnum4msb < 16
    ensures OplKeyScaleAtten(block, fnum4msb) == StepwiseAtten(block, fnum4msb)
  {
  }

  /** For a fixed frequency number, a higher block is never attenuated
      less: the chain of OneBlockLower steps only adds attenuation. */
  lemma {:induction false} MonotoneInBlock(low: uint32, high: uint32, fnum4msb: uint32)
    requires low <= high < 8 && fnum4msb < 16
    ensures OplKeyScaleAtten(low, fnum4msb) <= OplKeyScaleAtten(high, fnum4msb)
    decreases high - low
  {
    if low < high {
      OneBlockLower(high - 1, fnum4msb);
      MonotoneInBlock(low, high - 1, fnum4msb);
    }
  }

  /** For a fixed block, a higher frequency number is never attenuated
      less, because the table is sorted. */
  lemma MonotoneInFnum(block: uint32, low: uint32, high: uint32)
    requires block < 8 && low <= high < 16
    ensures OplKeyScaleAtten(block, low) <= OplKeyScaleAtten(block, high)
  {
    TableStepUp(low, high);
  }

  /** Block 0 is 7 blocks below 7, which takes away 56 units, the
      largest entry: every note in it gets no key-scale attenuation. */
  lemma Block0IsZero(fnum4msb: uint32)
    requires fnum4msb < 16
    ensures OplKeyScaleAtten(0, fnum4msb) == 0
  {
    TableInRange(fnum4msb);
  }

  /** The lowest frequency band gets no key-scale attenuation in any
      block. */
  lemma Fnum0IsZero(block: uint32)
    requires block < 8
    ensures OplKeyScaleAtten(block, 0) == 0
  {
  }

  /** Values worked out by hand: the table's ends at block 7, the largest
      entry cancelled at block 0, and 51 - 32 at block 3. */
  lemma WorkedValues()
    ensures OplKeyScaleAtten(7, 0) == 0
    ensures OplKeyScaleAtten(7, 15) == 56
    ensures OplKeyScaleAtten(0, 15) == 0
    ensures OplKeyScaleAtten(3, 10) == 19
  {
  }

  /** The block is not masked to 3 bits, so a wider block reaches the
      32-bit arithmetic unchanged. Block 8 only subtracts 120 and is
      clamped to 0. Block 0x1FFF_FFF8 gives a product 0xFFFF_FFF8 that
      still fits, but the difference 56 - 0xFFFF_FFF8 wraps to 64, above
      the table's maximum. Block 0x2000_0007 gives a product of exactly
      2^32, which wraps to 0, so it acts as block 7. */
  lemma UnmaskedBlockWraps()
    ensures OplKeyScaleAtten(8, 15) == 0
    ensures OplKeyScaleAtten(0x1FFF_FFF8, 15) == 64
    ensures OplKeyScaleAtten(0x2000_0007, 15) == 56
  {
    assert Xor32(8 as bv32, 7) as int == 15;
    assert Xor32(0x1FFF_FFF8 as bv32, 7) as int == 0x1FFF_FFFF;
    assert Wrap32(8 * 0x1FFF_FFFF) == 0xFFFF_FFF8;
    assert ToInt32(Wrap32(56 - 0xFFFF_FFF8)) == 64;
    assert Xor32(0x2000_0007 as bv32, 7) as int == 0x2000_0000;
    assert Wrap32(8 * 0x2000_0000) == 0;
  }
}
