/** Block-wise sequence numbers: a block is a reservation, and only reservations reach the disk. */
module Sequence {
  import opened Common
  import opened BigEndian

  const DEFAULT_BLOCK_SIZE: u64 := 4096

  datatype SeqBlock = SeqBlock(start: u64, blockSize: u64) {
    function NextBase(): u64 {
      WrapAdd(start, blockSize)
    }

    // The block's numbers, up to its end, fit in 64 bits.
    predicate Fits() {
      start + blockSize < U64_SIZE
    }
  }

  const BLOCK_CAPACITY := 16

  datatype DeserializeError = BufferTooShort(length: nat)

  function SerialiseBlock(b: SeqBlock): (data: Bytes)
    ensures |data| == BLOCK_CAPACITY
  {
    U64Bytes(b.start) + U64Bytes(b.blockSize)
  }

  function DeserializeBlock(data: Bytes): (r: Result<SeqBlock, DeserializeError>)
    ensures r.Err? <==> |data| < BLOCK_CAPACITY
  {
    if |data| < BLOCK_CAPACITY then Err(BufferTooShort(|data|))
    else Ok(SeqBlock(ReadU64(data[0..8]), ReadU64(data[8..16])))
  }

  lemma BlockRoundTrip(b: SeqBlock, trailing: Bytes)
    ensures DeserializeBlock(SerialiseBlock(b) + trailing) == Ok(b)
    ensures Decode(SerialiseBlock(b)[..8]) == b.start && Decode(SerialiseBlock(b)[8..]) == b.blockSize
  {
    var data := SerialiseBlock(b) + trailing;
    assert data[0..8] == U64Bytes(b.start) && data[8..16] == U64Bytes(b.blockSize);
    U64RoundTrip(b.start);
    U64RoundTrip(b.blockSize);
  }

  lemma BlockReencodes(data: Bytes)
    requires |data| >= BLOCK_CAPACITY
    ensures SerialiseBlock(DeserializeBlock(data).value) == data[..16]
  {
    EncodeDecode(data[0..8]);
    EncodeDecode(data[8..16]);
    assert data[..16] == data[0..8] + data[8..16];
  }

  // The allocator

  /** What an allocator remembers: the next number to hand out and the block it is working through. */
  datatype Cursor = Cursor(next: u64, block: SeqBlock) {
    predicate InBlock() {
      block.Fits() && block.start <= next <= block.NextBase()
    }
  }

  datatype Allocation = Allocation(cursor: Cursor, start: u64, reported: Option<SeqBlock>)

  const DEFAULT_CURSOR := Cursor(0, SeqBlock(0, DEFAULT_BLOCK_SIZE))

  function ResumedCursor(block: SeqBlock): Cursor {
    Cursor(block.NextBase(), block)
  }

  function Allocated(c: Cursor, count: u64): Allocation
    requires count <= c.block.blockSize
  {
    var remaining := WrapSub(c.block.NextBase(), c.next);
    if count < remaining then
      Allocation(Cursor(WrapAdd(c.next, count), c.block), c.next, None)
    else
      var newBlock := SeqBlock(WrapAdd(c.block.start, c.block.blockSize), c.block.blockSize);
      Allocation(Cursor(WrapAdd(c.block.NextBase(), count - remaining), newBlock), c.next, Some(newBlock))
  }

  class SequenceAllocator {
    var nextSequenceNumber: u64
    var currentBlock: SeqBlock

    function View(): Cursor
      reads this
    {
      Cursor(nextSequenceNumber, currentBlock)
    }

    constructor (block: SeqBlock)
      ensures View() == ResumedCursor(block)
    {
      nextSequenceNumber := block.NextBase();
      currentBlock := block;
    }

    constructor Default()
      ensures View() == DEFAULT_CURSOR
    {
      nextSequenceNumber := 0;
      currentBlock := SeqBlock(0, DEFAULT_BLOCK_SIZE);
    }

    method Allocate(count: u64) returns (start: u64, block: Option<SeqBlock>)
      requires count <= currentBlock.blockSize
      modifies this
      ensures Allocation(View(), start, block) == Allocated(old(View()), count)
    {
      var remaining := WrapSub(currentBlock.NextBase(), nextSequenceNumber);
      if count < remaining {
        start := nextSequenceNumber;
        nextSequenceNumber := WrapAdd(nextSequenceNumber, count);
        return start, None;
      }
      start := nextSequenceNumber;
      var nextBlockAllocation := count - remaining;
      var newBlock := SeqBlock(WrapAdd(currentBlock.start, currentBlock.blockSize), currentBlock.blockSize);
      nextSequenceNumber := WrapAdd(currentBlock.NextBase(), nextBlockAllocation);
      currentBlock := newBlock;
      block := Some(currentBlock);
    }
  }

  // One allocation refines a counter

  /** Short of 2^64 an allocation is `next += count`; it moves to the adjacent block exactly when it reaches the end
      of the current one, and the cursor stays inside its block. */
  lemma AllocationIsCounterStep(c: Cursor, count: u64)
    requires c.InBlock() && count <= c.block.blockSize
    ensures var a := Allocated(c, count);
            && a.start == c.next
            && (a.cursor.next == c.next + count <==> c.next + count < U64_SIZE)
            && (a.reported.Some? <==> c.block.NextBase() <= c.next + count)
            && (a.reported.Some? ==> a.reported == Some(a.cursor.block) && a.cursor.block.start == c.block.NextBase())
            && (a.reported.None? ==> a.cursor.block == c.block)
            && a.cursor.block.blockSize == c.block.blockSize
            && (a.cursor.InBlock() <==> a.cursor.block.Fits())
  {
  }

  /** From any cursor whatever, allocations count modulo 2^64: the next number moves on by the count, a block is reported
      exactly if no more than the count is left, modulo 2^64, of the current one, and then the adjacent block is. */
  lemma AllocationWraps(c: Cursor, count: u64)
    requires count <= c.block.blockSize
    ensures var a := Allocated(c, count);
            && a.start == c.next
            && a.cursor.next == (c.next + count) % U64_SIZE
            && (a.reported.Some? <==> (c.block.start + c.block.blockSize - c.next) % U64_SIZE <= count)
            && a.cursor.block == (if a.reported.None? then c.block
                                  else SeqBlock((c.block.start + c.block.blockSize) % U64_SIZE, c.block.blockSize))
            && (a.reported.Some? ==> a.reported == Some(a.cursor.block))
  {
    WrapsAreModular(c.block.start, c.block.blockSize);
    WrapsAreModular(c.block.NextBase(), c.next);
    WrapsAreModular(c.next, count);
  }

  lemma WrapsAreModular(a: u64, b: u64)
    ensures WrapAdd(a, b) == (a + b) % U64_SIZE && WrapSub(a, b) == (a - b) % U64_SIZE
  {
  }

  // Whole allocation sequences tile an interval

  function Total(counts: seq<u64>): nat {
    if counts == [] then 0 else counts[0] + Total(counts[1..])
  }

  predicate Servable(c: Cursor, counts: seq<u64>) {
    && c.InBlock()
    && c.next + Total(counts) + 2 * c.block.blockSize < U64_SIZE
    && forall i | 0 <= i < |counts| :: counts[i] <= c.block.blockSize
  }

  lemma ServableStep(c: Cursor, counts: seq<u64>)
    requires Servable(c, counts) && counts != []
    ensures Servable(Allocated(c, counts[0]).cursor, counts[1..])
  {
    AllocationIsCounterStep(c, counts[0]);
    assert forall i | 0 <= i < |counts[1..]| :: counts[1..][i] == counts[i + 1];
  }

  function Allocations(c: Cursor, counts: seq<u64>): (all: seq<Allocation>)
    requires Servable(c, counts)
    ensures |all| == |counts|
    decreases |counts|
  {
    if counts == [] then []
    else
      ServableStep(c, counts);
      var a := Allocated(c, counts[0]);
      [a] + Allocations(a.cursor, counts[1..])
  }

  /** Range i starts where the ranges before it end, so the ranges tile [next, next + total) without gap or overlap;
      every number handed out lies below the end of the block held afterwards, and blocks follow one another. */
  lemma {:induction false} AllocationsTile(c: Cursor, counts: seq<u64>, i: nat)
    requires Servable(c, counts) && i < |counts|
    ensures var all := Allocations(c, counts);
            && all[i].start == c.next + Total(counts[..i])
            && all[i].cursor.next == all[i].start + counts[i] <= all[i].cursor.block.NextBase()
            && all[i].cursor.InBlock()
            && var before := if i == 0 then c.block else all[i - 1].cursor.block;
               if before.NextBase() <= all[i].start + counts[i]
               then all[i].reported == Some(SeqBlock(before.NextBase(), c.block.blockSize)) &&
                    all[i].cursor.block == all[i].reported.value
               else all[i].reported == None && all[i].cursor.block == before
    decreases |counts|
  {
    AllocationIsCounterStep(c, counts[0]);
    ServableStep(c, counts);
    if i > 0 {
      AllocationsTile(Allocated(c, counts[0]).cursor, counts[1..], i - 1);
      assert counts[..i][1..] == counts[1..][..i - 1];
      TotalOfPrefix(counts, i);
    } else {
      assert counts[..0] == [];
      TotalOfPrefix(counts, 0);
    }
  }

  lemma {:induction false} TotalOfPrefix(counts: seq<u64>, i: nat)
    requires i < |counts|
    ensures Total(counts[..i]) + counts[i] <= Total(counts)
  {
    if i > 0 {
      assert counts[..i][1..] == counts[1..][..i - 1];
      TotalOfPrefix(counts[1..], i - 1);
    }
  }
}
