/**
  The mutexes of HashSetRefinable (src/HashSetRefinable.h): an array of blocks that grows by one block
  per resize and never moves a mutex. The arithmetic that finds an index's mutex is shown to be a
  bijection, and the arena to give every bucket a mutex of its own, for good.
*/
module MutexArena {
  import opened Common
  import opened Bits
  import opened SplitOrder

  const MAX_BLOCKS: nat := 65

  // ----- the bit functions -----

  /** std::bit_width */
  function BitWidth(n: nat): (w: nat)
    ensures n < Pow2(w) && (n > 0 ==> w > 0 && Pow2(w - 1) <= n)
  {
    if n == 0 then 0 else 1 + BitWidth(n / 2)
  }

  /** std::bit_floor, of zero too */
  function BitFloorOrZero(n: nat): (p: nat)
    ensures p <= n
  {
    if n == 0 then 0 else BitFloor(n)
  }

  /** `n & (n - 1)` is zero, for positive `n`. */
  predicate OneBit(n: nat) { n == 1 || (n > 0 && n % 2 == 0 && OneBit(n / 2)) }

  /** std::countr_zero */
  function CountrZero(n: nat): nat
    requires n > 0
  {
    if n % 2 == 1 then 0 else 1 + CountrZero(n / 2)
  }

  /** `None` stands for the exceptions of the source. */
  function ValidatedShift(capacity: nat): Option<nat> {
    if capacity < 2 then None else if !OneBit(capacity) then None else Some(CountrZero(capacity))
  }

  lemma {:induction false} OneBitIsPower(n: nat, k: nat)
    requires n > 0
    ensures n == Pow2(k) <==> OneBit(n) && CountrZero(n) == k
  {
    if n % 2 == 1 {
      if k > 0 {
        assert Pow2(k) == 2 * Pow2(k - 1);
      }
    } else if k > 0 {
      var m := n / 2;
      assert n == 2 * m && Pow2(k) == 2 * Pow2(k - 1);
      OneBitIsPower(m, k - 1);
    }
  }

  /** Exactly the powers of two from 2 on are accepted, and the shift is their exponent. */
  lemma ShiftIsExponent(capacity: nat, k: nat)
    ensures ValidatedShift(capacity) == Some(k) <==> k > 0 && capacity == Pow2(k)
  {
    if capacity >= 2 {
      OneBitIsPower(capacity, k);
    }
  }

  // ----- the arithmetic of the arena -----

  function BlockIndex(shift: nat, index: nat): nat { BitWidth(Shr(index, shift)) }

  function BlockOffset(shift: nat, index: nat): nat {
    ShrLow(index, shift);
    FloorBelow(shift, index);
    index - BitFloorOrZero(Shr(index, shift)) * Pow2(shift)
  }

  function BlockSize(shift: nat, block: nat): nat { Pow2(if block == 0 then shift else shift + block - 1) }

  /** The index whose mutex is at `offset` in `block`: the blocks partition the indices in order. */
  function SlotIndex(shift: nat, block: nat, offset: nat): nat {
    if block == 0 then offset else Pow2(shift + block - 1) + offset
  }

  lemma Below(a: nat, b: nat, u: nat)
    requires a <= b
    ensures a * u <= b * u
  {
  }

  /** Multiples of `u` compare with `index` as they do with the whole multiple of `u` in it. */
  lemma Scaled(q: nat, p: nat, u: nat, index: nat, rest: nat)
    requires index == q * u + rest && rest < u
    ensures p <= q ==> u * p <= index
    ensures q < p ==> index < u * p
  {
    if p <= q {
      Below(p, q, u);
    } else {
      Below(q + 1, p, u);
    }
  }

  lemma FloorBelow(shift: nat, index: nat)
    ensures BitFloorOrZero(Shr(index, shift)) * Pow2(shift) <= index
  {
    hide BitFloorOrZero, Shr, Pow2;
    ShrLow(index, shift);
    Scaled(Shr(index, shift), BitFloorOrZero(Shr(index, shift)), Pow2(shift), index, Low(index, shift));
  }

  lemma PowersApart(a: nat, b: nat, n: nat)
    requires Pow2(a) <= n < Pow2(a + 1) && Pow2(b) <= n < Pow2(b + 1)
    ensures a == b
  {
    if a < b {
      Pow2Monotone(a + 1, b);
    } else if b < a {
      Pow2Monotone(b + 1, a);
    }
  }

  lemma WidthAndFloor(n: nat)
    requires n > 0
    ensures BitFloor(n) == Pow2(BitWidth(n) - 1)
  {
    var j := BitFloorIsPower(n);
    PowersApart(j, BitWidth(n) - 1, n);
  }

  /** The block bounds the index from both sides. */
  lemma BlockBounds(shift: nat, index: nat)
    ensures var b := BlockIndex(shift, index);
            index < Pow2(shift + b) && (b > 0 ==> Pow2(shift + b - 1) <= index)
  {
    var q := Shr(index, shift);
    var w := BitWidth(q);
    assert BlockIndex(shift, index) == w;
    hide *;
    ShrLow(index, shift);
    Pow2Add(shift, w);
    Scaled(q, Pow2(w), Pow2(shift), index, Low(index, shift));
    if w > 0 {
      Pow2Add(shift, w - 1);
      Scaled(q, Pow2(w - 1), Pow2(shift), index, Low(index, shift));
    }
  }

  /** `index` lies in block 0 below the initial capacity, and in the block that its top bit names from there on. */
  lemma WhichBlock(shift: nat, index: nat, block: nat)
    ensures BlockIndex(shift, index) == block <==>
            if block == 0 then index < Pow2(shift) else Pow2(shift + block - 1) <= index < Pow2(shift + block)
  {
    hide BlockIndex, Pow2;
    var b := BlockIndex(shift, index);
    BlockBounds(shift, index);
    if b == 0 {
      if block > 0 {
        Pow2Monotone(shift, shift + block - 1);
      }
    } else if block == 0 {
      Pow2Monotone(shift, shift + b - 1);
    } else if Pow2(shift + block - 1) <= index < Pow2(shift + block) {
      PowersApart(shift + b - 1, shift + block - 1, index);
    }
  }

  lemma OffsetInBlock(shift: nat, index: nat)
    ensures var b := BlockIndex(shift, index);
            BlockOffset(shift, index) == index - (if b == 0 then 0 else Pow2(shift + b - 1))
  {
    ShrLow(index, shift);
    var q := Shr(index, shift);
    if q > 0 {
      WidthAndFloor(q);
      Pow2Add(BitWidth(q) - 1, shift);
    }
  }

  /** Every index has a slot inside its block, and is the index of that slot. */
  lemma SlotOfIndex(shift: nat, index: nat)
    ensures var b, o := BlockIndex(shift, index), BlockOffset(shift, index);
            o < BlockSize(shift, b) && SlotIndex(shift, b, o) == index
  {
    hide BlockIndex, BlockOffset;
    var b := BlockIndex(shift, index);
    WhichBlock(shift, index, b);
    OffsetInBlock(shift, index);
  }

  /** Every slot of every block is the slot of its index. */
  lemma IndexOfSlot(shift: nat, block: nat, offset: nat)
    requires offset < BlockSize(shift, block)
    ensures var i := SlotIndex(shift, block, offset); BlockIndex(shift, i) == block && BlockOffset(shift, i) == offset
  {
    hide BlockIndex, BlockOffset;
    var i := SlotIndex(shift, block, offset);
    WhichBlock(shift, i, block);
    OffsetInBlock(shift, i);
  }

  /**
    After `k` doublings of a capacity of 2^shift, block and offset map the indices below the capacity
    one-to-one onto the slots of the first `k + 1` blocks.
  */
  lemma ArenaBijection(shift: nat, k: nat, index: nat, block: nat, offset: nat)
    ensures index < Pow2(shift + k) <==> BlockIndex(shift, index) <= k
    ensures BlockOffset(shift, index) < BlockSize(shift, BlockIndex(shift, index))
    ensures offset < BlockSize(shift, block) ==>
            (BlockIndex(shift, index) == block && BlockOffset(shift, index) == offset <==>
              index == SlotIndex(shift, block, offset))
    ensures offset < BlockSize(shift, block) && block <= k ==> SlotIndex(shift, block, offset) < Pow2(shift + k)
  {
    hide BlockIndex, BlockOffset;
    BelowCapacity(shift, k, index);
    SlotOfIndex(shift, index);
    if offset < BlockSize(shift, block) {
      IndexOfSlot(shift, block, offset);
      BelowCapacity(shift, k, SlotIndex(shift, block, offset));
    }
  }

  lemma BelowCapacity(shift: nat, k: nat, index: nat)
    ensures index < Pow2(shift + k) <==> BlockIndex(shift, index) <= k
  {
    hide BlockIndex;
    var b := BlockIndex(shift, index);
    WhichBlock(shift, index, b);
    if b <= k {
      Pow2Monotone(shift + b, shift + k);
    } else {
      Pow2Monotone(shift + k, shift + b - 1);
    }
  }

  /** The block a resize allocates is the next one, and holds exactly as many mutexes as there were buckets. */
  lemma NextBlock(shift: nat, k: nat)
    ensures BlockIndex(shift, Pow2(shift + k)) == k + 1 && BlockSize(shift, k + 1) == Pow2(shift + k)
  {
    hide BlockIndex;
    WhichBlock(shift, Pow2(shift + k), k + 1);
  }

  // ----- the arena itself -----

  class PaddedMutex {
    constructor () { }
  }

  /** An empty block stands for a null one; `blocks` counts those that are there. */
  class Arena {
    const shift: nat
    const arena: array<seq<PaddedMutex>>
    ghost var blocks: nat

    /** The first `blocks` blocks are allocated, and no two slots share a mutex. */
    ghost predicate Valid()
      reads this, arena
    {
      && arena.Length == MAX_BLOCKS && blocks <= MAX_BLOCKS
      && (forall b :: 0 <= b < MAX_BLOCKS ==> |arena[b]| == if b < blocks then BlockSize(shift, b) else 0)
      && forall b, o, c, p {:trigger arena[b][o], arena[c][p]} ::
           0 <= b < blocks && 0 <= o < |arena[b]| && 0 <= c < blocks && 0 <= p < |arena[c]| &&
             arena[b][o] == arena[c][p] ==>
             b == c && o == p
    }

    ghost function At(block: nat, offset: nat): PaddedMutex
      requires Valid() && block < blocks && offset < BlockSize(shift, block)
      reads this, arena
    {
      arena[block][offset]
    }

    /** The mutex for a bucket. */
    ghost function MutexFor(index: nat): PaddedMutex
      requires Valid() && BlockIndex(shift, index) < blocks
      reads this, arena
    {
      hide *;
      SlotOfIndex(shift, index);
      At(BlockIndex(shift, index), BlockOffset(shift, index))
    }

    constructor (initialShift: nat)
      ensures shift == initialShift && Valid() && blocks == 1 && fresh(arena)
    {
      shift := initialShift;
      arena := new seq<PaddedMutex>[MAX_BLOCKS](_ => []);
      blocks := 0;
      new;
      EnlargeMutexArena(0);
    }

    /** Allocates the next block; every mutex that was there stays where it is. */
    method EnlargeMutexArena(blockIndex: nat)
      requires Valid() && blockIndex == blocks < MAX_BLOCKS
      modifies this`blocks, arena
      ensures Valid() && blocks == blockIndex + 1
      ensures forall i :: BlockIndex(shift, i) < blockIndex ==> MutexFor(i) == old(MutexFor(i))
      ensures forall o :: 0 <= o < |arena[blockIndex]| ==> fresh(arena[blockIndex][o])
    {
      ghost var before := arena[..];
      var block: seq<PaddedMutex> := [];
      while |block| < BlockSize(shift, blockIndex)
        invariant |block| <= BlockSize(shift, blockIndex)
        invariant arena[..] == before && blocks == blockIndex
        invariant forall o :: 0 <= o < |block| ==> fresh(block[o])
        invariant forall o, p :: 0 <= o < p < |block| ==> block[o] != block[p]
        decreases BlockSize(shift, blockIndex) - |block|
      {
        var mutex := new PaddedMutex();
        block := block + [mutex];
      }
      arena[blockIndex] := block;
      blocks := blocks + 1;
      assert forall b :: 0 <= b < blockIndex ==> arena[b] == before[b];
    }

    method GetMutex(index: nat) returns (mutex: PaddedMutex)
      requires Valid() && BlockIndex(shift, index) < blocks
      ensures mutex == MutexFor(index)
    {
      SlotOfIndex(shift, index);
      mutex := arena[BlockIndex(shift, index)][BlockOffset(shift, index)];
    }

    /** Different buckets have different mutexes. */
    lemma MutexesDiffer(i: nat, j: nat)
      requires Valid() && BlockIndex(shift, i) < blocks && BlockIndex(shift, j) < blocks && i != j
      ensures MutexFor(i) != MutexFor(j)
    {
      SlotOfIndex(shift, i);
      SlotOfIndex(shift, j);
    }
  }
}
