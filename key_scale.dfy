/*
 * Key-scale attenuation of the OPL family, as computed by ymfm's
 * opl_key_scale_atten: a note given as a 3-bit block (octave) and the top
 * 4 bits of its frequency number is turned into an extra attenuation, in
 * 0.75 dB units (one total-level LSB), that rolls off higher notes at
 * 6 dB per octave.
 *
 * The arithmetic is modelled as the C++ performs it: the XOR on a 32-bit
 * unsigned block, the product and the difference wrapping modulo 2^32,
 * the conversion of that difference to a signed 32-bit value, and the
 * clamp at 0 done by std::max<int32_t>.
 */
module KeyScale {

  /** The C++ uint32_t: every value is in range, arithmetic on it wraps. */
  type uint32 = x: int | 0 <= x < 0x1_0000_0000

  /** The C++ int32_t. */
  type int32 = x: int | -0x8000_0000 <= x < 0x8000_0000

  const Modulus32: int := 0x1_0000_0000

  /** Attenuation for block 7, indexed by the top 4 bits of the frequency
      number; entries for lower blocks are derived from these. */
  const FnumToAtten: seq<int> := [0, 24, 32, 37, 40, 43, 45, 47, 48, 50, 51, 52, 53, 54, 55, 56]

  /** The largest entry of FnumToAtten, which is also 8 times 7. */
  const MaxAtten: int := 56

  /** Reduction of an integer to the unsigned 32-bit value it wraps to. */
  function Wrap32(x: int): (r: uint32)
    ensures (x - r) % Modulus32 == 0
    ensures 0 <= x < Modulus32 ==> r == x
  {
    x % Modulus32
  }

  /** Two's-complement reading of an unsigned 32-bit value as int32_t. */
  function ToInt32(x: uint32): (r: int32)
    ensures Wrap32(r) == x
    ensures r < 0 <==> x >= 0x8000_0000
  {
    if x < 0x8000_0000 then x else x - Modulus32
  }

  /** The C++ `^` on uint32_t: bitwise exclusive or of two 32-bit words.
      XOR-ing with the same mask again undoes it, and on a 3-bit value
      XOR with 7 flips the three bits. */
  function Xor32(a: bv32, b: bv32): (r: bv32)
    ensures r ^ b == a
    ensures a < 8 && b == 7 ==> r == 7 - a
  {
    a ^ b
  }

  /** std::max on two values: the second one when the first is smaller. */
  function Max(a: int, b: int): (r: int)
    ensures r >= a && r >= b
    ensures r == a || r == b
  {
    if a < b then b else a
  }

  /** Every entry of the table is an attenuation between 0 and MaxAtten. */
  lemma TableInRange(fnum4msb: nat)
    requires fnum4msb < 16
    ensures 0 <= FnumToAtten[fnum4msb] <= MaxAtten
  {
  }

  /** Reading a value that already fits in int32_t back from its unsigned
      wrap gives the value itself. */
  lemma Int32RoundTrip(v: int32)
    ensures ToInt32(Wrap32(v)) == v
  {
    if v < 0 {
      assert Wrap32(v) == v + Modulus32;
    }
  }

  /** On a 3-bit uint32_t block, `block ^ 7` read back as an integer is
      the number of blocks below 7. */
  lemma XorSevenIsComplement(block: uint32)
    requires block < 8
    ensures (Xor32(block as bv32, 7) as int) == 7 - block
  {
  }

  /** On a 3-bit block the unsigned product `8 * (block ^ 7)` does not
      wrap: it is 8 times the number of blocks below 7. */
  lemma ProductDoesNotWrap(block: uint32)
    requires block < 8
    ensures Wrap32(8 * (Xor32(block as bv32, 7) as int)) == 8 * (7 - block)
  {
    XorSevenIsComplement(block);
  }

  /** The difference of two attenuations in 0..MaxAtten, taken modulo
      2^32 and read back as int32_t, is the signed integer difference. */
  lemma SmallDifferenceIsExact(entry: int, product: uint32)
    requires 0 <= entry <= MaxAtten && product <= MaxAtten
    ensures ToInt32(Wrap32(entry - product)) == entry - product
  {
    Int32RoundTrip(entry - product);
  }

  /** On the 3-bit block domain the unsigned wrap-around of the C++
      expression and its conversion to int32_t lose nothing: the signed
      result is the plain integer difference, negative for low blocks. */
  lemma UnsignedDifferenceIsExact(block: uint32, fnum4msb: uint32)
    requires block < 8 && fnum4msb < 16
    ensures ToInt32(Wrap32(FnumToAtten[fnum4msb] - Wrap32(8 * (Xor32(block as bv32, 7) as int))))
            == FnumToAtten[fnum4msb] - 8 * (7 - block)
  {
    ProductDoesNotWrap(block);
    TableInRange(fnum4msb);
    SmallDifferenceIsExact(FnumToAtten[fnum4msb], Wrap32(8 * (Xor32(block as bv32, 7) as int)));
  }

  /** The table's own description of the lower blocks: start from the
      block-7 entry and, for each block below 7, take off 8 units and
      clamp at 0. Its closed form is the one OplKeyScaleAtten meets. */
  function StepwiseAtten(block: nat, fnum4msb: nat): (r: int)
    requires block < 8 && fnum4msb < 16
    ensures r == Max(0, FnumToAtten[fnum4msb] - 8 * (7 - block))
    decreases 7 - block
  {
    if block == 7 then
      TableInRange(fnum4msb);
      FnumToAtten[fnum4msb]
    else
      Max(0, StepwiseAtten(block + 1, fnum4msb) - 8)
  }

  /** opl_key_scale_atten: the looked-up block-7 value, less 8 for each
      block below 7, clamped at 0. The block's upper bits are not masked,
      so any uint32_t block is accepted; the frequency index must address
      the 16-entry table. */
  function OplKeyScaleAtten(block: uint32, fnum4msb: uint32): (r: uint32)
    requires fnum4msb < 16
    ensures block < 8 ==> r == Max(0, FnumToAtten[fnum4msb] - 8 * (7 - block))
  {
    var result := ToInt32(Wrap32(FnumToAtten[fnum4msb] - Wrap32(8 * (Xor32(block as bv32, 7) as int))));
    assert block < 8 ==> result == FnumToAtten[fnum4msb] - 8 * (7 - block) by {
      if block < 8 { UnsignedDifferenceIsExact(block, fnum4msb); }
    }
    Max(0, result)
  }
}
