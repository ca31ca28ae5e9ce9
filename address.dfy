/**
 * Bit-field codec between a 64-bit virtual address and its cache
 * coordinates (tag, set index, block offset) for the fixed geometry of
 * include/address.h: 6 block bits, 9 set bits (512 sets) and the remaining
 * 49 bits of tag. Each getter is written with the same shifts as the
 * original, on 64-bit bit-vectors, so bits shifted past bit 63 are lost
 * exactly as they are on a `uint64_t`.
 */
module Address {

  /** Width of the block-offset field (log2 of the 64-byte line). */
  const BLOCK_BITS: nat := 6
  /** Number of congruence classes of the targeted cache. */
  const NUM_SETS: nat := 512
  /** Width of the set-index field. */
  const SET_BITS: nat := 9
  /** Width of the tag field: every bit above the set index. */
  const TAG_BITS: nat := 64 - (SET_BITS + BLOCK_BITS)

  /** The three field widths tile a 64-bit address, and the set field
      distinguishes exactly NUM_SETS classes. */
  lemma GeometryIsConsistent()
    ensures TAG_BITS + SET_BITS + BLOCK_BITS == 64
    ensures TAG_BITS == 49
    ensures NUM_SETS == (1 as bv64 << SET_BITS) as int
  {
  }

  /** The set index: bits 6..14 of the address. */
  function GetSetIndex(addr: bv64): (r: bv64)
    ensures r == (addr / 64) % 512
    ensures r < 512
  {
    (addr << TAG_BITS) >> (TAG_BITS + BLOCK_BITS)
  }

  /** The offset of the byte inside its 64-byte line: bits 0..5. */
  function GetBlockIndex(addr: bv64): (r: bv64)
    ensures r == addr % 64
    ensures r < 64
  {
    (addr << (TAG_BITS + SET_BITS)) >> (TAG_BITS + SET_BITS)
  }

  /** The tag: bits 15..63. */
  function GetTag(addr: bv64): (r: bv64)
    ensures r == addr / 0x8000
    ensures r < 0x2_0000_0000_0000
  {
    addr >> (SET_BITS + BLOCK_BITS)
  }

  /** Reassembles an address from its three fields. Fields wider than their
      width are not masked: their high bits either fall off the top of the
      word (tag) or are ORed into the neighbouring field (set, block). */
  function ConcatAddress(tag: bv64, setIndex: bv64, block: bv64): (r: bv64)
    ensures setIndex < 512 && block < 64 ==> r / 0x8000 == tag % 0x2_0000_0000_0000
    ensures setIndex < 512 && block < 64 ==> r % 0x8000 == setIndex * 64 + block
  {
    (tag << (SET_BITS + BLOCK_BITS)) | (setIndex << BLOCK_BITS) | block
  }

  /** Decomposing a composed address gives back the fields it was built
      from, as long as each field fits its width. */
  lemma DecomposeCompose(tag: bv64, setIndex: bv64, block: bv64)
    requires tag < 0x2_0000_0000_0000 && setIndex < 512 && block < 64
    ensures GetTag(ConcatAddress(tag, setIndex, block)) == tag
    ensures GetSetIndex(ConcatAddress(tag, setIndex, block)) == setIndex
    ensures GetBlockIndex(ConcatAddress(tag, setIndex, block)) == block
  {
  }

  /** Composing the fields of any address gives back that address. */
  lemma ComposeDecompose(addr: bv64)
    ensures ConcatAddress(GetTag(addr), GetSetIndex(addr), GetBlockIndex(addr)) == addr
  {
  }

  /** An address that is a multiple of 2^15 lies in set 0 at block 0: this
      is the placement the eviction-set allocator relies on. */
  lemma AlignedAddressIsSetZeroBlockZero(addr: bv64)
    requires addr % 0x8000 == 0
    ensures GetSetIndex(addr) == 0 && GetBlockIndex(addr) == 0
  {
  }
}
