// src/backfill.rs: cutting the block range into chunks.
module ChunkRanges {
  import opened Base

  // An inclusive range of block numbers.
  datatype Range = Range(lo: nat, hi: nat) {
    predicate Contains(block: nat) {
      lo <= block <= hi
    }
  }

  // Contiguous non-empty ranges from start to end.
  ghost predicate Partitions(ranges: seq<Range>, start: nat, end: nat) {
    && |ranges| > 0
    && ranges[0].lo == start
    && ranges[|ranges| - 1].hi == end
    && (forall i :: 0 <= i < |ranges| ==> ranges[i].lo <= ranges[i].hi)
    && (forall i, j :: 0 <= i && j == i + 1 && j < |ranges| ==> ranges[j].lo == ranges[i].hi + 1)
  }

  function ChunkCount(start: nat, end: nat, size: nat): nat
    requires start <= end && size > 0
  {
    (end - start) / size + 1
  }

  function NthChunk(start: nat, end: nat, size: nat, i: nat): Range
    requires size > 0
  {
    Range(start + i * size, if start + i * size + size - 1 <= end then start + i * size + size - 1 else end)
  }

  function Chunks(start: nat, end: nat, size: nat): (ranges: seq<Range>)
    requires size > 0
  {
    if start > end then []
    else seq(ChunkCount(start, end, size), i requires 0 <= i => NthChunk(start, end, size, i))
  }

  lemma Quotient(d: nat, size: nat, k: nat)
    requires size > 0 && k * size <= d < k * size + size
    ensures d / size == k
  {
    var q := d / size;
    assert d == q * size + d % size;
    assert q < k ==> (q + 1) * size <= k * size;
    assert k < q ==> (k + 1) * size <= q * size;
  }

  lemma Division(d: nat, size: nat)
    requires size > 0
    ensures (d / size) * size <= d < (d / size) * size + size
  {
    assert d == (d / size) * size + d % size;
  }

  // The loop of `chunk_ranges`, with u64 additions that are checked: None is the
  // arithmetic overflow.  It happens exactly when the last, possibly cut, chunk
  // would end beyond u64::MAX if it were full.
  method ChunkRanges(start: u64, end: u64, size: u64) returns (result: Option<seq<Range>>)
    requires size > 0
    ensures result.None? <==>
              start <= end && start + ((end - start) / size + 1) * size > 0xFFFF_FFFF_FFFF_FFFF
    ensures result.Some? ==> result.value == Chunks(start, end, size)
  {
    var ranges := [];
    var current: u64 := start;
    while current <= end
      invariant start <= current
      invariant start > end ==> ranges == []
      invariant start <= end ==> current <= end
      invariant current == start + |ranges| * size
      invariant forall i :: 0 <= i < |ranges| ==> ranges[i] == NthChunk(start, end, size, i)
      decreases end - current
    {
      ghost var n := |ranges|;
      assert (n + 1) * size == n * size + size;
      if current + size > U64_MAX {
        Quotient(end - start, size, n);
        return None;
      }
      var chunkEnd := Min(current + size - 1, end);
      ranges := ranges + [Range(current, chunkEnd)];
      if chunkEnd == end {
        Quotient(end - start, size, n);
        assert ranges == Chunks(start, end, size);
        return Some(ranges);
      }
      current := chunkEnd + 1;
    }
    return Some(ranges);
  }

  // What the chunks are for: they partition the range, block b lies in the
  // chunk numbered (b - start) / size and in no other, and all chunks are full
  // except perhaps the last.
  lemma ChunksPartition(start: nat, end: nat, size: nat)
    requires start <= end && size > 0
    ensures |Chunks(start, end, size)| == (end - start) / size + 1
    ensures Partitions(Chunks(start, end, size), start, end)
    ensures forall i :: 0 <= i < |Chunks(start, end, size)| - 1 ==>
                          Chunks(start, end, size)[i].hi - Chunks(start, end, size)[i].lo + 1 == size
    ensures forall b, i :: start <= b <= end && 0 <= i < |Chunks(start, end, size)| ==>
                             (Chunks(start, end, size)[i].Contains(b) <==> i == (b - start) / size)
  {
    var ranges := Chunks(start, end, size);
    var last := |ranges| - 1;
    Division(end - start, size);
    forall i | 0 <= i < |ranges|
      ensures ranges[i].lo == start + i * size
      ensures i < last ==> ranges[i].hi == start + i * size + size - 1
      ensures i == last ==> ranges[i].hi == end
      ensures ranges[i].lo <= ranges[i].hi <= end
      ensures i < last ==> (i + 1) * size == i * size + size
    {
      if i < last {
        assert (i + 1) * size <= last * size;
        assert (i + 1) * size == i * size + size;
      }
    }
    forall b, i | start <= b <= end && 0 <= i < |ranges|
      ensures ranges[i].Contains(b) <==> i == (b - start) / size
    {
      Division(b - start, size);
      if ranges[i].Contains(b) {
        Quotient(b - start, size, i);
      }
    }
  }

  // In any partition every block of the range lies in exactly one chunk.
  lemma {:induction false} PartitionFind(ranges: seq<Range>, start: nat, end: nat, b: nat) returns (i: nat)
    requires Partitions(ranges, start, end) && start <= b <= end
    ensures i < |ranges| && ranges[i].Contains(b)
    ensures forall j :: 0 <= j < |ranges| && ranges[j].Contains(b) ==> j == i
  {
    i := 0;
    while ranges[i].hi < b
      invariant i < |ranges| && ranges[i].lo <= b
      decreases |ranges| - i
    {
      i := i + 1;
    }
    forall j | 0 <= j < |ranges| && ranges[j].Contains(b)
      ensures j == i
    {
      if j < i {
        PartitionOrder(ranges, start, end, j, i);
      } else if i < j {
        PartitionOrder(ranges, start, end, i, j);
      }
    }
  }

  lemma {:induction false} PartitionOrder(ranges: seq<Range>, start: nat, end: nat, i: nat, j: nat)
    requires Partitions(ranges, start, end) && i < j < |ranges|
    ensures start <= ranges[i].lo <= ranges[i].hi < ranges[j].lo <= ranges[j].hi <= end
  {
    PartitionBounds(ranges, start, end, i);
    PartitionBounds(ranges, start, end, j);
    var k := i;
    while k + 1 < j
      invariant i <= k < j
      invariant ranges[i].hi <= ranges[k].hi
      decreases j - k
    {
      assert ranges[k + 1].lo == ranges[k].hi + 1;
      k := k + 1;
    }
    assert ranges[j].lo == ranges[k].hi + 1;
  }

  lemma {:induction false} PartitionBounds(ranges: seq<Range>, start: nat, end: nat, i: nat)
    requires Partitions(ranges, start, end) && i < |ranges|
    ensures start <= ranges[i].lo && ranges[i].hi <= end
  {
    var k := 0;
    while k < i
      invariant 0 <= k <= i && start <= ranges[k].lo
    {
      assert ranges[k + 1].lo == ranges[k].hi + 1;
      k := k + 1;
    }
    k := |ranges| - 1;
    while k > i
      invariant i <= k < |ranges| && ranges[k].hi <= end
    {
      assert ranges[k].lo == ranges[k - 1].hi + 1;
      k := k - 1;
    }
  }
}
