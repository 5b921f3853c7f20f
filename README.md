# Key-scale attenuation of the OPL family (ymfm)

This project models `opl_key_scale_atten`, the one executable function in ymfm's
`ymfm.cpp`. The function belongs to the OPL-family engine. It takes a note as a
3-bit block (octave) and the top 4 bits of its frequency number (fnum). It
returns the key-scale attenuation offset in 0.75 dB units, the same unit as one
total-level step. The offset rolls off higher notes at 6 dB per octave.

The model keeps the C++ arithmetic:

- a 16-entry block-7 table (`KeyScale.FnumToAtten`);
- the XOR `block ^ 7` on `bv32`, converted back to an unsigned integer;
- the unsigned product and difference, wrapped modulo 2^32;
- the conversion of that difference to `int32_t`, read as two's complement;
- the clamp `std::max<int32_t>(0, result)`.

The function's contract ties this bit-level computation to the closed form
`max(0, table[fnum] - 8 * (7 - block))` for every 3-bit block. The lemmas in
`KeyScaleProperties` then state what the operator's attenuation sum relies on:
- exact table values at block 7;
- 8 units less for each lower block;
- a result between 0 and 56;
- no attenuation at block 0 or at fnum 0;
- monotonicity in both the block and the fnum.

Files:
- `key_scale.dfy`: module `KeyScale`, which holds the 32-bit integer types, the table and the function.
- `key_scale_properties.dfy`: module `KeyScaleProperties`, which holds the properties of the function.

## Model

| member | source | states |
|---|---|---|
| KeyScale.OplKeyScaleAtten | 3rdparty/ymfm/src/ymfm.cpp:386-394 | For any block below 8 and any fnum below 16, the result of the 32-bit computation is `max(0, table[fnum] - 8 * (7 - block))`. Any uint32 block is accepted, but the index must address the 16-entry table. |
| KeyScale.StepwiseAtten | 3rdparty/ymfm/src/ymfm.cpp:388-391 | This is the table's own description of lower blocks: start from the block-7 entry and, for each block below 7, subtract 8 and clamp at 0. Proved by recursion to equal `max(0, table[fnum] - 8 * (7 - block))`. |
| KeyScale.XorSevenIsComplement | 3rdparty/ymfm/src/ymfm.cpp:392 | On a 3-bit uint32_t block, `block ^ 7` read back as an integer equals `7 - block`, the number of blocks below 7. |
| KeyScale.ProductDoesNotWrap | 3rdparty/ymfm/src/ymfm.cpp:392 | On a 3-bit block, the unsigned product `8 * (block ^ 7)` does not wrap and equals `8 * (7 - block)`. |
| KeyScale.UnsignedDifferenceIsExact | 3rdparty/ymfm/src/ymfm.cpp:392 | On the documented domain, subtracting in unsigned 32-bit arithmetic and then converting to `int32_t` gives the ordinary integer difference, which is negative for low blocks. |
| KeyScale.Int32RoundTrip | 3rdparty/ymfm/src/ymfm.cpp:392 | Any value that fits in `int32_t` survives the unsigned wrap and the conversion back to `int32_t` unchanged. |
| KeyScale.ToInt32 | 3rdparty/ymfm/src/ymfm.cpp:392 | The two's-complement reading of a uint32 wraps back to that uint32, and it is negative exactly when bit 31 is set. |
| KeyScale.Xor32 | 3rdparty/ymfm/src/ymfm.cpp:392 | The C++ `^` on uint32_t, computed on bv32. XOR-ing the result with the same mask gives back the operand, and on a 3-bit operand XOR with 7 is `7 - a`. |
| KeyScale.Wrap32 | 3rdparty/ymfm/src/ymfm.cpp:392 | The unsigned result differs from the integer by a multiple of 2^32, and a value already in range is unchanged. |
| KeyScale.Max | 3rdparty/ymfm/src/ymfm.cpp:393 | `std::max` returns one of its two arguments, and the result is at least as large as both. |
| KeyScale.TableInRange | 3rdparty/ymfm/src/ymfm.cpp:391 | Every table entry lies between 0 and 56. |
| KeyScaleProperties.TableSorted | 3rdparty/ymfm/src/ymfm.cpp:388-391 | The block-7 table is non-decreasing in the fnum index. |
| KeyScaleProperties.TableStepUp | 3rdparty/ymfm/src/ymfm.cpp:391 | For any two indices i <= j below 16, `table[i] <= table[j]`. This is proved by induction over adjacent entries. |
| KeyScaleProperties.Block7IsTableEntry | 3rdparty/ymfm/src/ymfm.cpp:388-392 | At block 7 the result equals the table entry exactly. |
| KeyScaleProperties.ResultBounded | 3rdparty/ymfm/src/ymfm.cpp:391-393 | The result is never negative, never above the block-7 entry, and so never above 56. |
| KeyScaleProperties.ZeroExactlyWhenClamped | 3rdparty/ymfm/src/ymfm.cpp:392-393 | The result is 0 exactly when `8 * (7 - block)` is at least the table entry, in both directions. |
| KeyScaleProperties.OneBlockLower | 3rdparty/ymfm/src/ymfm.cpp:389-390 | Each block below 7 gives the next higher block's value less 8, clamped at 0. Eight units is 6 dB per octave. |
| KeyScaleProperties.MatchesStepwise | 3rdparty/ymfm/src/ymfm.cpp:388-393 | On every 3-bit block, the bit-level computation equals the stepwise description in the table's comment. |
| KeyScaleProperties.MonotoneInBlock | 3rdparty/ymfm/src/ymfm.cpp:389-393 | For a fixed fnum, the result is non-decreasing in the block. |
| KeyScaleProperties.MonotoneInFnum | 3rdparty/ymfm/src/ymfm.cpp:391-393 | For a fixed block, the result is non-decreasing in the fnum, because the table is sorted. |
| KeyScaleProperties.Block0IsZero | 3rdparty/ymfm/src/ymfm.cpp:391-393 | Block 0 yields 0 for every fnum, because 8 * 7 equals the largest entry, 56. |
| KeyScaleProperties.Fnum0IsZero | 3rdparty/ymfm/src/ymfm.cpp:391-393 | An fnum of 0 yields 0 for every block. |
| KeyScaleProperties.WorkedValues | 3rdparty/ymfm/src/ymfm.cpp:391-393 | (7,0) gives 0, (7,15) gives 56, (0,15) gives 0, and (3,10) gives 51 - 32 = 19. |
| KeyScaleProperties.UnmaskedBlockWraps | 3rdparty/ymfm/src/ymfm.cpp:380-393 | The block is not masked to 3 bits. With fnum 15, block 8 yields 0 because its negative difference is clamped. Block 0x1FFF_FFF8 yields 64, above the table maximum: its product 0xFFFF_FFF8 still fits in 32 bits, but the difference wraps. Block 0x2000_0007 yields 56: its product is exactly 2^32, which wraps to 0, so it acts as block 7. |

## Left out

- `src/devices/sound/qsound.h` holds only declarations for device integration (sound stream, ROM, DSP16 bridge, timer callbacks), with no logic to model.
- The design commentary in `3rdparty/ymfm/src/ymfm.cpp` (families, attenuation scales, block_freq layouts, LFO, timers, status, busy flag, per-chip register notes) describes code in `ymfm.h` and `ymfm.ipp`. Those files are not part of this model.
- An fnum index of 16 or more reads past the 16-entry table, which is undefined behaviour in C++. `KeyScale.OplKeyScaleAtten` therefore requires `fnum4msb < 16`.
- Before C++20, converting an out-of-range unsigned value to `int32_t` was implementation-defined. The model uses the two's-complement reading that C++20 mandates and that every platform ymfm targets provides.
- The attenuation values stay in integer 0.75 dB units. There is no conversion to decibels or to floating point.
