// igl::vulkan::VulkanStagingDevice (src/igl/vulkan/VulkanStagingDevice.h/.cpp):
// one host-visible staging buffer carved into MemoryRegions kept in a deque.
// Uploads and downloads borrow regions, tag them with the submit handle of the
// transfer, and hand them back. The fence machinery of VulkanImmediateCommands
// is an oracle: a submit handle is a number (0 is the empty, default handle),
// `pending` holds the handles whose command buffers have not finished, and
// both `wait` and the GPU's own progress remove handles from it. The bytes
// moved by memcpy and vkCmdCopyBuffer are recorded as Transfer entries.

module VulkanStagingDevice {
  import opened IglCore

  /** kStagingBufferAlignment */
  const kStagingBufferAlignment: nat := 16
  /** The 256 MB cap of some architectures on host- and device-visible buffers. */
  const kStagingBufferCap: nat := 256 * 1024 * 1024
  /** The largest request whose alignment to 16 does not wrap around 64 bits. */
  const MaxRequestSize: nat := UINT64_LIMIT - kStagingBufferAlignment

  type SubmitHandle = nat
  const EmptyHandle: SubmitHandle := 0

  /** MemoryRegion; every field defaults to 0 and the handle to the empty one. */
  datatype MemoryRegion = MemoryRegion(offset: nat, size: nat, alignedSize: nat, handle: SubmitHandle)

  const DefaultMemoryRegion := MemoryRegion(0, 0, 0, EmptyHandle)

  /**
   * A staged transfer is one memcpy to or from the staging buffer plus one
   * vkCmdCopyBuffer between the staging buffer and the target buffer: `size`
   * bytes at `dataOffset` in host memory, `stagingOffset` in the staging
   * buffer and `bufferOffset` in the target. A mapped target is written or
   * read directly.
   */
  datatype Transfer =
    | Staged(stagingOffset: nat, bufferOffset: nat, dataOffset: nat, size: nat)
    | Mapped(bufferOffset: nat, size: nat)

  function Min(a: nat, b: nat): (r: nat)
    ensures r <= a && r <= b && (r == a || r == b)
  {
    if a <= b then a else b
  }

  // ---------------------------------------------------------------------
  // Pure helpers
  // ---------------------------------------------------------------------

  /** getAlignedSize: (size + 15) & ~15 on a 64-bit VkDeviceSize; clearing the low four bits rounds down to a multiple of 16. */
  function GetAlignedSize(size: nat): nat
    requires size < UINT64_LIMIT
  {
    Wrap(size + kStagingBufferAlignment - 1, UINT64_LIMIT) / kStagingBufferAlignment * kStagingBufferAlignment
  }

  /** The aligned size is a multiple of 16, at least the size and less than 16 above it. */
  lemma AlignedSizeBounds(size: nat)
    requires size <= MaxRequestSize
    ensures GetAlignedSize(size) % kStagingBufferAlignment == 0
    ensures size <= GetAlignedSize(size) < size + kStagingBufferAlignment
  {
  }

  /** ... and no multiple of 16 that holds the size is smaller. */
  lemma AlignedSizeIsSmallest(size: nat, m: nat)
    requires size <= MaxRequestSize
    requires m % kStagingBufferAlignment == 0 && size <= m
    ensures GetAlignedSize(size) <= m
  {
  }

  /** The 64-bit addition wraps for the last fifteen sizes, which align to 0. */
  lemma AlignedSizeWrapsAtTheTop()
    ensures GetAlignedSize(UINT64_LIMIT - 1) == 0
  {
  }

  /** shouldGrowStagingBuffer */
  predicate ShouldGrowStagingBuffer(hasStagingBuffer: bool, stagingBufferSize: nat, sizeNeeded: nat) {
    !hasStagingBuffer || sizeNeeded > stagingBufferSize
  }

  /** nextSize: the aligned request, capped at the maximum staging size. */
  function NextSize(requestedSize: nat, maxStagingBufferSize: nat): (r: nat)
    requires requestedSize <= MaxRequestSize
    ensures r <= maxStagingBufferSize
    ensures r == maxStagingBufferSize || r == GetAlignedSize(requestedSize)
    ensures requestedSize <= maxStagingBufferSize ==> requestedSize <= r
  {
    AlignedSizeBounds(requestedSize);
    Min(GetAlignedSize(requestedSize), maxStagingBufferSize)
  }

  /** The constructor's limit: the device's maxStorageBufferRange, capped at 256 MB. */
  function MaxStagingBufferSizeFor(maxStorageBufferRange: nat): (r: nat)
    ensures r <= kStagingBufferCap && r <= maxStorageBufferRange
    ensures r == kStagingBufferCap || r == maxStorageBufferRange
  {
    Min(maxStorageBufferRange, kStagingBufferCap)
  }

  // ---------------------------------------------------------------------
  // Footprints
  // ---------------------------------------------------------------------

  /** A region occupies [offset, offset + alignedSize) of the staging buffer. */
  predicate Fits(r: MemoryRegion, bufferSize: nat) {
    0 < r.size <= r.alignedSize && r.offset + r.alignedSize <= bufferSize
  }

  predicate Disjoint(a: MemoryRegion, b: MemoryRegion) {
    a.offset + a.alignedSize <= b.offset || b.offset + b.alignedSize <= a.offset
  }

  predicate Within(inner: MemoryRegion, outer: MemoryRegion) {
    outer.offset <= inner.offset && inner.offset + inner.alignedSize <= outer.offset + outer.alignedSize
  }

  /** No two regions of the deque share a byte. */
  predicate PairwiseDisjoint(rs: seq<MemoryRegion>) {
    forall i, j :: 0 <= i < j < |rs| ==> Disjoint(rs[i], rs[j])
  }

  predicate AllFit(rs: seq<MemoryRegion>, bufferSize: nat) {
    forall i :: 0 <= i < |rs| ==> Fits(rs[i], bufferSize)
  }

  predicate DisjointFromAll(x: MemoryRegion, rs: seq<MemoryRegion>) {
    forall i :: 0 <= i < |rs| ==> Disjoint(x, rs[i])
  }

  function Remove(rs: seq<MemoryRegion>, i: nat): (r: seq<MemoryRegion>)
    requires i < |rs|
    ensures |r| == |rs| - 1
    ensures forall j :: 0 <= j < i ==> r[j] == rs[j]
    ensures forall j :: i <= j < |r| ==> r[j] == rs[j + 1]
  {
    rs[..i] + rs[i + 1..]
  }

  lemma RemoveKeepsInvariant(rs: seq<MemoryRegion>, i: nat, bufferSize: nat)
    requires i < |rs| && PairwiseDisjoint(rs) && AllFit(rs, bufferSize)
    ensures PairwiseDisjoint(Remove(rs, i)) && AllFit(Remove(rs, i), bufferSize)
    ensures DisjointFromAll(rs[i], Remove(rs, i))
  {
    var r := Remove(rs, i);
    forall a, b | 0 <= a < b < |r| ensures Disjoint(r[a], r[b]) {
      var a', b' := if a < i then a else a + 1, if b < i then b else b + 1;
      assert r[a] == rs[a'] && r[b] == rs[b'] && a' < b';
    }
    forall a | 0 <= a < |r| ensures Disjoint(rs[i], r[a]) {
      var a' := if a < i then a else a + 1;
      assert r[a] == rs[a'];
      if a' < i { assert Disjoint(rs[a'], rs[i]); } else { assert Disjoint(rs[i], rs[a']); }
    }
  }

  /** A block that fits inside a removed region is disjoint from everything that stayed. */
  lemma InsideIsDisjoint(x: MemoryRegion, outer: MemoryRegion, rs: seq<MemoryRegion>)
    requires Within(x, outer) && DisjointFromAll(outer, rs)
    ensures DisjointFromAll(x, rs)
  {
  }

  lemma PushFrontKeepsInvariant(x: MemoryRegion, rs: seq<MemoryRegion>, bufferSize: nat)
    requires PairwiseDisjoint(rs) && AllFit(rs, bufferSize)
    requires Fits(x, bufferSize) && DisjointFromAll(x, rs)
    ensures PairwiseDisjoint([x] + rs) && AllFit([x] + rs, bufferSize)
  {
    var r := [x] + rs;
    forall a, b | 0 <= a < b < |r| ensures Disjoint(r[a], r[b]) {
      assert r[b] == rs[b - 1];
      if a > 0 { assert r[a] == rs[a - 1]; }
    }
  }

  lemma PushBackKeepsInvariant(x: MemoryRegion, rs: seq<MemoryRegion>, bufferSize: nat)
    requires PairwiseDisjoint(rs) && AllFit(rs, bufferSize)
    requires Fits(x, bufferSize) && DisjointFromAll(x, rs)
    ensures PairwiseDisjoint(rs + [x]) && AllFit(rs + [x], bufferSize)
  {
    var r := rs + [x];
    forall a, b | 0 <= a < b < |r| ensures Disjoint(r[a], r[b]) {
      assert r[a] == rs[a];
      if b < |rs| { assert r[b] == rs[b]; } else { assert Disjoint(x, rs[a]); }
    }
  }

  // ---------------------------------------------------------------------
  // The search of nextFreeBlock as functions
  // ---------------------------------------------------------------------

  /** isReady: the empty handle is always ready, any other once its commands finished. */
  predicate IsReady(pending: set<SubmitHandle>, h: SubmitHandle) {
    h !in pending
  }

  /**
   * bestNextIt after the first n regions were scanned: it starts at the
   * front region and moves only to a ready region strictly larger than the
   * current candidate.
   */
  function BestUpTo(rs: seq<MemoryRegion>, pending: set<SubmitHandle>, n: nat): (b: nat)
    requires n <= |rs|
    ensures n == 0 ==> b == 0
    ensures n > 0 ==> b < n
  {
    if n == 0 then 0
    else
      var b := BestUpTo(rs, pending, n - 1);
      if IsReady(pending, rs[n - 1].handle) && rs[n - 1].size > rs[b].size then n - 1 else b
  }

  /**
   * The candidate is the front region or a ready one; no ready region scanned
   * is larger, and every ready region before it is strictly smaller.
   */
  lemma {:induction false} BestIsLargestReady(rs: seq<MemoryRegion>, pending: set<SubmitHandle>, n: nat)
    requires 0 < n <= |rs|
    ensures var b := BestUpTo(rs, pending, n);
      && (b == 0 || IsReady(pending, rs[b].handle))
      && (forall j :: 0 <= j < n && IsReady(pending, rs[j].handle) ==> rs[j].size <= rs[b].size)
      && (forall j :: 0 < j < b && IsReady(pending, rs[j].handle) ==> rs[j].size < rs[b].size)
  {
    if n > 1 {
      BestIsLargestReady(rs, pending, n - 1);
    }
  }

  /**
   * A front region that is still in use and at least as large as every ready
   * region keeps the candidate on itself, so the search falls through to the
   * full wait even though smaller ready regions exist.
   */
  lemma {:induction false} BusyFrontRegionKeepsCandidate(rs: seq<MemoryRegion>, pending: set<SubmitHandle>, n: nat)
    requires 0 < n <= |rs|
    requires forall j :: 0 <= j < n && IsReady(pending, rs[j].handle) ==> rs[j].size <= rs[0].size
    ensures BestUpTo(rs, pending, n) == 0
  {
    if n > 1 {
      BusyFrontRegionKeepsCandidate(rs, pending, n - 1);
    }
  }

  /** The index of the first ready region at least `req` bytes large. */
  function FirstFit(rs: seq<MemoryRegion>, pending: set<SubmitHandle>, req: nat, from: nat): (r: Option<nat>)
    requires from <= |rs|
    decreases |rs| - from
    ensures r.Some? ==> from <= r.value < |rs| && IsReady(pending, rs[r.value].handle) && rs[r.value].size >= req
    ensures r.Some? ==> forall j :: from <= j < r.value ==> !(IsReady(pending, rs[j].handle) && rs[j].size >= req)
    ensures r.None? ==> forall j :: from <= j < |rs| ==> !(IsReady(pending, rs[j].handle) && rs[j].size >= req)
  {
    if from == |rs| then None
    else if IsReady(pending, rs[from].handle) && rs[from].size >= req then Some(from)
    else FirstFit(rs, pending, req, from + 1)
  }

  /** The handles of a list of regions, as waitAndReset waits on them. */
  function HandlesOf(rs: seq<MemoryRegion>): (hs: set<SubmitHandle>)
    ensures forall i :: 0 <= i < |rs| ==> rs[i].handle in hs
    ensures forall h :: h in hs ==> exists i :: 0 <= i < |rs| && rs[i].handle == h
  {
    if rs == [] then {} else HandlesOf(rs[..|rs| - 1]) + {rs[|rs| - 1].handle}
  }

  /** A list of staged transfers tiles a byte range in order. */
  predicate Tiles(ts: seq<Transfer>, bufferStart: nat, dataStart: nat, total: nat)
    decreases |ts|
  {
    if ts == [] then total == 0
    else
      && ts[0].Staged?
      && 0 < ts[0].size <= total
      && ts[0].bufferOffset == bufferStart
      && ts[0].dataOffset == dataStart
      && Tiles(ts[1..], bufferStart + ts[0].size, dataStart + ts[0].size, total - ts[0].size)
  }

  lemma {:induction false} TilesAppend(ts: seq<Transfer>, bufferStart: nat, dataStart: nat, total: nat, t: Transfer)
    requires Tiles(ts, bufferStart, dataStart, total)
    requires t.Staged? && t.size > 0
    requires t.bufferOffset == bufferStart + total && t.dataOffset == dataStart + total
    ensures Tiles(ts + [t], bufferStart, dataStart, total + t.size)
    decreases |ts|
  {
    if ts != [] {
      assert (ts + [t])[1..] == ts[1..] + [t];
      TilesAppend(ts[1..], bufferStart + ts[0].size, dataStart + ts[0].size, total - ts[0].size, t);
    }
  }

  /**
   * Upload chunk k was staged in region occ[k], submitted under handle
   * firstHandle + k, and filled it completely unless it was the last chunk.
   */
  predicate Occupies(ts: seq<Transfer>, occ: seq<MemoryRegion>, firstHandle: nat) {
    && |ts| == |occ|
    && forall k :: 0 <= k < |ts| ==>
      && ts[k].Staged? && ts[k].stagingOffset == occ[k].offset && ts[k].size <= occ[k].size
      && occ[k].handle == firstHandle + k
      && (ts[k].size < occ[k].size ==> k == |ts| - 1)
  }

  lemma OccupiesAppend(ts: seq<Transfer>, occ: seq<MemoryRegion>, firstHandle: nat, t: Transfer, c: MemoryRegion)
    requires Occupies(ts, occ, firstHandle)
    requires |ts| > 0 ==> ts[|ts| - 1].size == occ[|ts| - 1].size
    requires t.Staged? && t.stagingOffset == c.offset && t.size <= c.size && c.handle == firstHandle + |ts|
    ensures Occupies(ts + [t], occ + [c], firstHandle)
  {
    forall k | 0 <= k < |ts| + 1
      ensures (ts + [t])[k].size < (occ + [c])[k].size ==> k == |ts|
    {
      if k < |ts| {
        assert (ts + [t])[k] == ts[k] && (occ + [c])[k] == occ[k];
      }
    }
  }

  /**
   * Tiling transfers move every byte of the range exactly once: host byte
   * dataStart + k lands at bufferStart + k in exactly one transfer.
   */
  lemma {:induction false} TilesCoverEachByteOnce(ts: seq<Transfer>, bufferStart: nat, dataStart: nat, total: nat, k: nat)
    requires Tiles(ts, bufferStart, dataStart, total) && k < total
    ensures exists i :: (0 <= i < |ts| && ts[i].Staged?
      && ts[i].dataOffset <= dataStart + k < ts[i].dataOffset + ts[i].size
      && ts[i].bufferOffset - ts[i].dataOffset == bufferStart - dataStart)
    ensures forall i, j :: (0 <= i < |ts| && 0 <= j < |ts| && ts[i].Staged? && ts[j].Staged?
      && ts[i].dataOffset <= dataStart + k < ts[i].dataOffset + ts[i].size
      && ts[j].dataOffset <= dataStart + k < ts[j].dataOffset + ts[j].size) ==> i == j
    decreases |ts|
  {
    TilesStartAbove(ts, bufferStart, dataStart, total);
    if k >= ts[0].size {
      var rest := ts[1..];
      TilesCoverEachByteOnce(rest, bufferStart + ts[0].size, dataStart + ts[0].size, total - ts[0].size, k - ts[0].size);
      var i :| 0 <= i < |rest| && rest[i].Staged?
        && rest[i].dataOffset <= dataStart + k < rest[i].dataOffset + rest[i].size
        && rest[i].bufferOffset - rest[i].dataOffset == bufferStart - dataStart;
      assert ts[i + 1] == rest[i];
    } else {
      assert ts[0].dataOffset <= dataStart + k < ts[0].dataOffset + ts[0].size;
    }
  }

  /** Every transfer after the first starts where an earlier one ended. */
  lemma {:induction false} TilesStartAbove(ts: seq<Transfer>, bufferStart: nat, dataStart: nat, total: nat)
    requires Tiles(ts, bufferStart, dataStart, total)
    ensures forall i :: 0 <= i < |ts| ==> (ts[i].Staged?
      && dataStart <= ts[i].dataOffset && ts[i].dataOffset + ts[i].size <= dataStart + total
      && ts[i].bufferOffset - ts[i].dataOffset == bufferStart - dataStart)
    ensures forall i :: 0 < i < |ts| ==> ts[0].dataOffset + ts[0].size <= ts[i].dataOffset
    ensures forall i, j :: 0 <= i < j < |ts| ==> ts[i].dataOffset + ts[i].size <= ts[j].dataOffset
    decreases |ts|
  {
    if ts != [] {
      var rest := ts[1..];
      TilesStartAbove(rest, bufferStart + ts[0].size, dataStart + ts[0].size, total - ts[0].size);
      forall i, j | 0 <= i < j < |ts| ensures ts[i].dataOffset + ts[i].size <= ts[j].dataOffset {
        assert ts[j] == rest[j - 1];
        if i > 0 { assert ts[i] == rest[i - 1]; }
      }
    }
  }

  // ---------------------------------------------------------------------
  // Offsets as the source computes them
  // ---------------------------------------------------------------------

  /** bufferSubData as written: chunkDstOffset is a uint32_t initialised from the size_t offset. */
  function ChunkDstOffsetAsWritten(dstOffset: nat, consumed: nat): (r: nat)
    ensures r < UINT32_LIMIT
    ensures dstOffset + consumed < UINT32_LIMIT ==> r == dstOffset + consumed
  {
    Wrap(Wrap(dstOffset, UINT32_LIMIT) + consumed, UINT32_LIMIT)
  }

  /** An offset of 4 GiB or more is truncated: the first chunk goes to offset 0. */
  lemma ChunkDstOffsetTruncatesLargeOffsets()
    ensures ChunkDstOffsetAsWritten(UINT32_LIMIT, 0) == 0 != UINT32_LIMIT + 0
  {
  }

  /** bufferSubData as intended: the offset keeps the width of VkDeviceSize. */
  function ChunkDstOffset(dstOffset: nat, consumed: nat): (r: nat)
    ensures r - consumed == dstOffset
  {
    dstOffset + consumed
  }

  /** Below 4 GiB the two agree: truncation only matters for large buffers. */
  lemma ChunkDstOffsetAgreesBelow4GiB(dstOffset: nat, consumed: nat)
    requires dstOffset + consumed < UINT32_LIMIT
    ensures ChunkDstOffset(dstOffset, consumed) == ChunkDstOffsetAsWritten(dstOffset, consumed)
  {
  }

  /**
   * getBufferSubData as written: memcpy's destination capacity is
   * `bufferSize - chunkSrcOffset` in size_t, and it copies memoryChunk.size
   * bytes; the result is (capacity, count).
   */
  function DownloadMemcpyAsWritten(bufferSize: nat, chunkSrcOffset: nat, chunk: MemoryRegion): (r: (nat, nat))
    ensures r.0 < UINT64_LIMIT && r.1 == chunk.size
  {
    (Wrap(bufferSize - chunkSrcOffset, UINT64_LIMIT), chunk.size)
  }

  /**
   * With a source offset of 8, a 16-byte download into a 16-byte destination
   * gets one 16-byte chunk, but the capacity passed is 8.
   */
  lemma DownloadCapacityMixesInSourceOffset()
    ensures var r := DownloadMemcpyAsWritten(16, 8, MemoryRegion(0, 16, 16, EmptyHandle)); r.0 < r.1
  {
  }

  /**
   * getBufferSubData as intended: the capacity is what is left of the
   * destination, and the count is the chunk's share of the request.
   */
  function DownloadMemcpy(size: nat, consumed: nat, copySize: nat): (r: (nat, nat))
    requires consumed + copySize <= size
    ensures r.1 <= r.0
    ensures r.0 + consumed == size && r.1 == copySize
  {
    (size - consumed, copySize)
  }

  // ---------------------------------------------------------------------
  // The device
  // ---------------------------------------------------------------------

  class StagingDevice {
    var maxStagingBufferSize: nat
    var stagingBufferSize: nat
    var stagingBufferCounter: nat
    var hasStagingBuffer: bool
    var regions: seq<MemoryRegion>
    /** VulkanImmediateCommands: the handles not yet ready, and the next one submit returns. */
    var pending: set<SubmitHandle>
    var nextHandle: SubmitHandle
    /** Calls of VulkanContext::waitDeferredTasks. */
    var deferredTaskWaits: nat
    var uploads: seq<Transfer>
    var downloads: seq<Transfer>

    ghost predicate Valid()
      reads this
    {
      && 0 < maxStagingBufferSize <= kStagingBufferCap
      && stagingBufferSize <= maxStagingBufferSize
      && (hasStagingBuffer <==> stagingBufferSize > 0)
      && AllFit(regions, stagingBufferSize)
      && PairwiseDisjoint(regions)
      && stagingBufferCounter < UINT32_LIMIT
      && 0 < nextHandle
      && EmptyHandle !in pending
      && (forall h :: h in pending ==> h < nextHandle)
    }

    /** Every region of the deque is ready again. */
    ghost predicate AllReady()
      reads this
    {
      forall i :: 0 <= i < |regions| ==> IsReady(pending, regions[i].handle)
    }

    /** The constructor: the limit comes from the device; nothing is allocated yet. */
    constructor (maxStorageBufferRange: nat)
      requires 0 < maxStorageBufferRange < UINT32_LIMIT
      ensures Valid()
      ensures maxStagingBufferSize == MaxStagingBufferSizeFor(maxStorageBufferRange)
      ensures stagingBufferSize == 0 && stagingBufferCounter == 0 && !hasStagingBuffer
      ensures regions == [] && pending == {} && uploads == [] && downloads == []
    {
      maxStagingBufferSize := MaxStagingBufferSizeFor(maxStorageBufferRange);
      stagingBufferSize := 0;
      stagingBufferCounter := 0;
      hasStagingBuffer := false;
      regions := [];
      pending := {};
      nextHandle := 1;
      deferredTaskWaits := 0;
      uploads := [];
      downloads := [];
    }

    /** getCurrentStagingBufferSize: never above the maximum, and 0 exactly when there is no buffer. */
    function GetCurrentStagingBufferSize(): (r: nat)
      reads this
      ensures Valid() ==> r <= GetMaxStagingBufferSize() && (r == 0 <==> !hasStagingBuffer)
    {
      stagingBufferSize
    }

    /** getMaxStagingBufferSize: positive and never above the 256 MB cap. */
    function GetMaxStagingBufferSize(): (r: nat)
      reads this
      ensures Valid() ==> 0 < r <= kStagingBufferCap
    {
      maxStagingBufferSize
    }

    /** VulkanImmediateCommands::submit: a fresh handle whose commands are in flight. */
    method Submit() returns (h: SubmitHandle)
      requires Valid()
      modifies this`pending, this`nextHandle
      ensures Valid()
      ensures h == old(nextHandle) && h != EmptyHandle && h !in old(pending)
      ensures pending == old(pending) + {h} && nextHandle == old(nextHandle) + 1
    {
      h := nextHandle;
      pending := pending + {h};
      nextHandle := nextHandle + 1;
    }

    /** VulkanImmediateCommands::wait: the handle's commands have finished on return. */
    method Wait(h: SubmitHandle)
      requires Valid()
      modifies this`pending
      ensures Valid()
      ensures pending == old(pending) - {h}
    {
      pending := pending - {h};
    }

    /** The GPU finishing work between calls, outside the staging device's control. */
    method CompleteWork(done: set<SubmitHandle>)
      requires Valid()
      modifies this`pending
      ensures Valid()
      ensures pending == old(pending) - done
    {
      pending := pending - done;
    }

    /**
     * waitAndReset: waits on every region's handle, then leaves exactly one
     * region spanning the whole buffer.
     */
    method WaitAndReset()
      modifies this`pending, this`regions
      ensures pending == old(pending) - HandlesOf(old(regions))
      ensures regions == [WholeBuffer(stagingBufferSize)]
    {
      var i := 0;
      while i < |regions|
        invariant 0 <= i <= |regions| && regions == old(regions)
        invariant pending == old(pending) - HandlesOf(regions[..i])
      {
        assert regions[..i + 1][..i] == regions[..i];
        pending := pending - {regions[i].handle};
        i := i + 1;
      }
      assert regions[..i] == regions;
      regions := [WholeBuffer(stagingBufferSize)];
    }

    /**
     * growStagingBuffer: waits for every region, drops the old buffer
     * (waiting for deferred destruction when both would exceed the maximum),
     * allocates `minimumSize` bytes and starts over with one full region.
     */
    method GrowStagingBuffer(minimumSize: nat)
      requires Valid()
      requires 0 < minimumSize <= maxStagingBufferSize
      modifies this`pending, this`regions, this`stagingBufferSize, this`stagingBufferCounter,
        this`hasStagingBuffer, this`deferredTaskWaits
      ensures Valid() && AllReady()
      ensures pending == old(pending) - HandlesOf(old(regions))
      ensures stagingBufferSize == minimumSize && hasStagingBuffer
      ensures stagingBufferCounter == Wrap(old(stagingBufferCounter) + 1, UINT32_LIMIT)
      ensures deferredTaskWaits == old(deferredTaskWaits) + (if minimumSize + old(stagingBufferSize) > maxStagingBufferSize then 1 else 0)
      ensures regions == [WholeBuffer(minimumSize)]
    {
      WaitAndReset();
      hasStagingBuffer := false;
      if minimumSize + stagingBufferSize > maxStagingBufferSize {
        deferredTaskWaits := deferredTaskWaits + 1;
      }
      stagingBufferSize := minimumSize;
      stagingBufferCounter := Wrap(stagingBufferCounter + 1, UINT32_LIMIT);
      hasStagingBuffer := true;
      regions := [];
      regions := [WholeBuffer(stagingBufferSize)] + regions;
    }

    /**
     * nextFreeBlock: the block handed out is taken from the deque's free
     * space, so it shares no byte with any region left in the deque; the
     * search itself (FreeBlockResult) runs on the deque after growth (see
     * GrownRegions and GrownPending).
     */
    method NextFreeBlock(size: nat) returns (chunk: MemoryRegion)
      requires Valid()
      requires 0 < size <= MaxRequestSize
      modifies this`pending, this`regions, this`stagingBufferSize, this`stagingBufferCounter,
        this`hasStagingBuffer, this`deferredTaskWaits
      ensures Valid()
      ensures Fits(chunk, stagingBufferSize) && DisjointFromAll(chunk, regions) && chunk.handle == EmptyHandle
      ensures pending <= old(pending) && nextHandle == old(nextHandle)
      ensures stagingBufferSize >= NextSize(size, maxStagingBufferSize)
      ensures ShouldGrowStagingBuffer(old(hasStagingBuffer), old(stagingBufferSize), GetAlignedSize(size)) ==>
        stagingBufferSize == NextSize(GetAlignedSize(size), maxStagingBufferSize)
        && stagingBufferCounter == Wrap(old(stagingBufferCounter) + 1, UINT32_LIMIT)
      ensures !ShouldGrowStagingBuffer(old(hasStagingBuffer), old(stagingBufferSize), GetAlignedSize(size)) ==>
        stagingBufferSize == old(stagingBufferSize) && stagingBufferCounter == old(stagingBufferCounter)
      ensures FreeBlockResult(
        GrownRegions(old(regions), old(hasStagingBuffer), old(stagingBufferSize), maxStagingBufferSize, size),
        GrownPending(old(regions), old(pending), old(hasStagingBuffer), old(stagingBufferSize), size),
        size, stagingBufferSize, chunk, regions, pending)
      ensures old(regions) == [WholeBuffer(old(stagingBufferSize))] ==> chunk.size >= Min(size, stagingBufferSize)
    {
      var req := GetAlignedSize(size);
      AlignedSizeBounds(size);
      if ShouldGrowStagingBuffer(hasStagingBuffer, stagingBufferSize, req) {
        GrowStagingBuffer(NextSize(req, maxStagingBufferSize));
      }
      chunk := FindFreeBlock(size);
    }

    /** The search of nextFreeBlock once the buffer is large enough or at its maximum. */
    method FindFreeBlock(size: nat) returns (chunk: MemoryRegion)
      requires Valid() && hasStagingBuffer
      requires 0 < size <= MaxRequestSize
      modifies this`pending, this`regions
      ensures Valid()
      ensures Fits(chunk, stagingBufferSize) && DisjointFromAll(chunk, regions) && chunk.handle == EmptyHandle
      ensures pending <= old(pending)
      ensures FreeBlockResult(old(regions), old(pending), size, stagingBufferSize, chunk, regions, pending)
      ensures old(regions) == [WholeBuffer(stagingBufferSize)] ==> chunk.size >= Min(size, stagingBufferSize)
    {
      var req := GetAlignedSize(size);
      AlignedSizeBounds(size);
      var firstFit, best := ScanRegions(req);
      ghost var rs, ps := regions, pending;
      if firstFit.Some? {
        chunk := TakeFirstFit(firstFit.value, size, req);
      } else if best < |regions| && IsReady(pending, regions[best].handle) {
        chunk := TakeBest(size, best);
      } else {
        chunk := ResetAndTakeFront(size, req);
      }
      if rs == [WholeBuffer(stagingBufferSize)] {
        WholeBufferOutcome(ps, size, stagingBufferSize, chunk, regions, pending);
      }
    }

    /** The best-fit branch of nextFreeBlock: the candidate is handed out whole. */
    method TakeBest(size: nat, b: nat) returns (chunk: MemoryRegion)
      requires Valid() && b < |regions|
      requires size <= MaxRequestSize && FirstFit(regions, pending, GetAlignedSize(size), 0).None?
      requires b == BestUpTo(regions, pending, |regions|) && IsReady(pending, regions[b].handle)
      modifies this`regions
      ensures Valid()
      ensures FreeBlockResult(old(regions), pending, size, stagingBufferSize, chunk, regions, pending)
      ensures Fits(chunk, stagingBufferSize) && DisjointFromAll(chunk, regions)
      ensures chunk == old(regions)[b].(handle := EmptyHandle)
      ensures regions == Remove(old(regions), b)
    {
      chunk := regions[b].(handle := EmptyHandle);
      RemoveKeepsInvariant(regions, b, stagingBufferSize);
      ghost var rs := regions;
      regions := Remove(regions, b);
      BestFitOutcome(rs, pending, size, stagingBufferSize, chunk, regions, pending);
    }

    /**
     * The loop of nextFreeBlock: it stops at the first ready region of at
     * least `req` bytes, and otherwise ends with the best-fit candidate.
     */
    method ScanRegions(req: nat) returns (firstFit: Option<nat>, best: nat)
      ensures firstFit == FirstFit(regions, pending, req, 0)
      ensures firstFit.None? ==> best == BestUpTo(regions, pending, |regions|)
    {
      best := 0;
      var i := 0;
      while i < |regions|
        invariant 0 <= i <= |regions|
        invariant FirstFit(regions, pending, req, 0) == FirstFit(regions, pending, req, i)
        invariant best == BestUpTo(regions, pending, i)
      {
        var r := regions[i];
        if IsReady(pending, r.handle) {
          if r.size >= req {
            return Some(i), best;
          }
          if r.size > regions[best].size {
            best := i;
          }
        }
        i := i + 1;
      }
      firstFit := None;
    }

    /** The last resort of nextFreeBlock: wait for everything and take the front of the buffer. */
    method ResetAndTakeFront(size: nat, req: nat) returns (chunk: MemoryRegion)
      requires Valid() && hasStagingBuffer
      requires 0 < size <= MaxRequestSize && req == GetAlignedSize(size) && FirstFit(regions, pending, req, 0).None?
      requires !(|regions| > 0 && IsReady(pending, regions[BestUpTo(regions, pending, |regions|)].handle))
      modifies this`pending, this`regions
      ensures Valid()
      ensures FreeBlockResult(old(regions), old(pending), size, stagingBufferSize, chunk, regions, pending)
      ensures Fits(chunk, stagingBufferSize) && DisjointFromAll(chunk, regions)
      ensures pending == old(pending) - HandlesOf(old(regions))
      ensures chunk == MemoryRegion(0, Min(size, stagingBufferSize), Min(req, stagingBufferSize), EmptyHandle)
      ensures regions == (if stagingBufferSize > req then [MemoryRegion(req, stagingBufferSize - req, stagingBufferSize - req, EmptyHandle)] else [])
    {
      WaitAndReset();
      regions := [];
      var unusedSize := if stagingBufferSize > req then stagingBufferSize - req else 0;
      if unusedSize > 0 {
        // The source keeps the offset in uint32_t; inside a buffer of at most 256 MB it does not wrap.
        var unusedOffset := Wrap(req, UINT32_LIMIT);
        regions := [MemoryRegion(unusedOffset, unusedSize, unusedSize, EmptyHandle)] + regions;
      }
      chunk := MemoryRegion(0, Min(size, stagingBufferSize), Min(req, stagingBufferSize), EmptyHandle);
      ResetOutcome(old(regions), old(pending), size, stagingBufferSize, chunk, regions, pending);
    }

    /** The first-fit branch of nextFreeBlock: split region i, remainder to the front. */
    method TakeFirstFit(i: nat, size: nat, req: nat) returns (chunk: MemoryRegion)
      requires Valid() && i < |regions|
      requires 0 < size <= MaxRequestSize && req == GetAlignedSize(size) && FirstFit(regions, pending, req, 0) == Some(i)
      modifies this`regions
      ensures Valid()
      ensures FreeBlockResult(old(regions), pending, size, stagingBufferSize, chunk, regions, pending)
      ensures Fits(chunk, stagingBufferSize) && DisjointFromAll(chunk, regions)
      ensures chunk == MemoryRegion(old(regions)[i].offset, size, req, EmptyHandle)
      ensures regions == (if old(regions)[i].size > req then [MemoryRegion(old(regions)[i].offset + req, old(regions)[i].size - req, old(regions)[i].size - req, EmptyHandle)] else []) + Remove(old(regions), i)
    {
      AlignedSizeBounds(size);
      var r := regions[i];
      assert Fits(r, stagingBufferSize);
      // The source keeps both in uint32_t; inside a buffer of at most 256 MB neither wraps.
      var unusedSize := Wrap(r.size - req, UINT32_LIMIT);
      var unusedOffset := Wrap(r.offset + req, UINT32_LIMIT);
      chunk := MemoryRegion(r.offset, size, req, EmptyHandle);
      RemoveKeepsInvariant(regions, i, stagingBufferSize);
      InsideIsDisjoint(chunk, r, Remove(regions, i));
      regions := Remove(regions, i);
      if unusedSize > 0 {
        var rest := MemoryRegion(unusedOffset, unusedSize, unusedSize, EmptyHandle);
        InsideIsDisjoint(rest, r, regions);
        PushFrontKeepsInvariant(rest, regions, stagingBufferSize);
        regions := [rest] + regions;
      }
      FirstFitOutcome(old(regions), pending, size, stagingBufferSize, i, chunk, regions, pending);
    }

    /**
     * bufferSubData: a mapped buffer is written directly. Otherwise the data
     * goes through the staging buffer in chunks; each chunk carries
     * min(remaining, chunk size) bytes to the next destination offset and is
     * appended to the deque with its submit handle, until nothing remains.
     */
    method BufferSubData(isMapped: bool, dstOffset: nat, size: nat) returns (ghost occupied: seq<MemoryRegion>)
      requires Valid()
      requires size <= MaxRequestSize && dstOffset + size < UINT64_LIMIT
      modifies this
      ensures Valid()
      ensures downloads == old(downloads) && maxStagingBufferSize == old(maxStagingBufferSize)
      ensures isMapped ==>
        && uploads == old(uploads) + [Mapped(dstOffset, size)]
        && regions == old(regions) && pending == old(pending) && nextHandle == old(nextHandle)
      ensures !isMapped ==>
        && |uploads| >= |old(uploads)| && uploads[..|old(uploads)|] == old(uploads)
        && Tiles(uploads[|old(uploads)|..], dstOffset, 0, size)
        && Occupies(uploads[|old(uploads)|..], occupied, old(nextHandle))
        && nextHandle == old(nextHandle) + |occupied|
      ensures !isMapped && size == 0 ==> uploads == old(uploads) && regions == old(regions) && pending == old(pending)
      ensures !isMapped && size > 0 ==>
        && |occupied| > 0 && |regions| > 0
        && regions[|regions| - 1] == occupied[|occupied| - 1] && occupied[|occupied| - 1].handle in pending
    {
      occupied := [];
      if isMapped {
        uploads := uploads + [Mapped(dstOffset, size)];
        return;
      }
      var remaining: nat := size;
      var consumed: nat := 0;
      ghost var done: seq<Transfer> := [];
      while remaining > 0
        invariant Valid()
        invariant consumed + remaining == size
        invariant uploads == old(uploads) + done
        invariant Tiles(done, dstOffset, 0, consumed)
        invariant Occupies(done, occupied, old(nextHandle)) && nextHandle == old(nextHandle) + |occupied|
        invariant remaining > 0 && |done| > 0 ==> done[|done| - 1].size == occupied[|done| - 1].size
        invariant |occupied| > 0 ==>
          |regions| > 0 && regions[|regions| - 1] == occupied[|occupied| - 1] && occupied[|occupied| - 1].handle in pending
        invariant done == [] ==> regions == old(regions) && pending == old(pending)
        invariant downloads == old(downloads) && maxStagingBufferSize == old(maxStagingBufferSize)
        decreases remaining
      {
        var t := UploadChunk(dstOffset, consumed, remaining);
        ghost var chunk := regions[|regions| - 1];
        TilesAppend(done, dstOffset, 0, consumed, t);
        OccupiesAppend(done, occupied, old(nextHandle), t, chunk);
        done := done + [t];
        occupied := occupied + [chunk];
        remaining := remaining - t.size;
        consumed := consumed + t.size;
      }
      assert consumed == size && uploads[|old(uploads)|..] == done;
    }

    /**
     * One iteration of bufferSubData's loop: the copy takes min(remaining,
     * chunk size) bytes from the chunk's staging offset, and the chunk stays
     * at the back of the deque, busy under its submit handle.
     */
    method UploadChunk(dstOffset: nat, consumed: nat, remaining: nat) returns (t: Transfer)
      requires Valid()
      requires 0 < remaining <= MaxRequestSize
      modifies this`pending, this`regions, this`stagingBufferSize, this`stagingBufferCounter,
        this`hasStagingBuffer, this`deferredTaskWaits, this`nextHandle, this`uploads
      ensures Valid()
      ensures t.Staged? && 0 < t.size <= remaining
      ensures t.bufferOffset == ChunkDstOffset(dstOffset, consumed) && t.dataOffset == consumed
      ensures |regions| > 0
      ensures var chunk := regions[|regions| - 1];
        && t.stagingOffset == chunk.offset && t.size == Min(remaining, chunk.size)
        && chunk.handle == old(nextHandle) && chunk.handle in pending
      ensures nextHandle == old(nextHandle) + 1
      ensures uploads == old(uploads) + [t]
      ensures downloads == old(downloads) && maxStagingBufferSize == old(maxStagingBufferSize)
    {
      var memoryChunk := NextFreeBlock(remaining);
      var copySize := Min(remaining, memoryChunk.size);
      t := Staged(memoryChunk.offset, ChunkDstOffset(dstOffset, consumed), consumed, copySize);
      SubmitUpload(memoryChunk, t);
    }

    /** The copy of one chunk is submitted, and the chunk goes to the back of the deque until it finishes. */
    method SubmitUpload(memoryChunk: MemoryRegion, t: Transfer)
      requires Valid()
      requires Fits(memoryChunk, stagingBufferSize) && DisjointFromAll(memoryChunk, regions)
      modifies this`pending, this`nextHandle, this`regions, this`uploads
      ensures Valid()
      ensures uploads == old(uploads) + [t]
      ensures regions == old(regions) + [memoryChunk.(handle := old(nextHandle))]
      ensures pending == old(pending) + {old(nextHandle)} && nextHandle == old(nextHandle) + 1
    {
      var h := Submit();
      PushBackKeepsInvariant(memoryChunk.(handle := h), regions, stagingBufferSize);
      regions := regions + [memoryChunk.(handle := h)];
      uploads := uploads + [t];
    }

    /**
     * getBufferSubData: like bufferSubData in the other direction, except that
     * each chunk's copy is waited for before its bytes are read back, so the
     * download is complete on return; chunks go back to the front of the deque.
     */
    method GetBufferSubData(isMapped: bool, srcOffset: nat, size: nat)
      requires Valid()
      requires size <= MaxRequestSize && srcOffset + size < UINT64_LIMIT
      modifies this
      ensures Valid()
      ensures uploads == old(uploads) && maxStagingBufferSize == old(maxStagingBufferSize)
      ensures isMapped ==> downloads == old(downloads) + [Mapped(srcOffset, size)] && regions == old(regions) && pending == old(pending)
      ensures !isMapped ==>
        && |downloads| >= |old(downloads)| && downloads[..|old(downloads)|] == old(downloads)
        && Tiles(downloads[|old(downloads)|..], srcOffset, 0, size)
      ensures pending <= old(pending)
    {
      if isMapped {
        downloads := downloads + [Mapped(srcOffset, size)];
        return;
      }
      var remaining: nat := size;
      var consumed: nat := 0;
      ghost var done: seq<Transfer> := [];
      while remaining > 0
        invariant Valid()
        invariant consumed + remaining == size
        invariant downloads == old(downloads) + done
        invariant Tiles(done, srcOffset, 0, consumed)
        invariant uploads == old(uploads) && maxStagingBufferSize == old(maxStagingBufferSize)
        invariant pending <= old(pending)
        decreases remaining
      {
        var t := DownloadChunk(srcOffset, consumed, size, remaining);
        TilesAppend(done, srcOffset, 0, consumed, t);
        done := done + [t];
        remaining := remaining - t.size;
        consumed := consumed + t.size;
      }
      assert consumed == size && downloads[|old(downloads)|..] == done;
    }

    /**
     * One iteration of getBufferSubData's loop: the copy is waited for, so no
     * handle is left pending, and the bytes fit what is left of the destination.
     */
    method DownloadChunk(srcOffset: nat, consumed: nat, size: nat, remaining: nat) returns (t: Transfer)
      requires Valid()
      requires 0 < remaining <= MaxRequestSize && consumed + remaining == size
      modifies this
      ensures Valid()
      ensures t.Staged? && 0 < t.size <= remaining
      ensures t.bufferOffset == srcOffset + consumed && t.dataOffset == consumed
      ensures downloads == old(downloads) + [t]
      ensures |regions| > 0
      ensures var chunk := regions[0];
        && t.stagingOffset == chunk.offset && t.size == Min(remaining, chunk.size)
        && chunk.handle == EmptyHandle
      ensures t.dataOffset + t.size <= size
      ensures pending <= old(pending)
      ensures uploads == old(uploads) && maxStagingBufferSize == old(maxStagingBufferSize)
    {
      var memoryChunk := NextFreeBlock(remaining);
      var copySize := Min(remaining, memoryChunk.size);
      var (capacity, count) := DownloadMemcpy(size, consumed, copySize);
      assert count <= capacity;
      t := Staged(memoryChunk.offset, srcOffset + consumed, consumed, count);
      SubmitDownload(memoryChunk, t);
    }

    /**
     * The copy of one chunk is submitted and waited for before the bytes are
     * read, so the chunk goes back to the front of the deque ready for reuse.
     */
    method SubmitDownload(memoryChunk: MemoryRegion, t: Transfer)
      requires Valid()
      requires Fits(memoryChunk, stagingBufferSize) && DisjointFromAll(memoryChunk, regions)
      modifies this`pending, this`nextHandle, this`regions, this`downloads
      ensures Valid()
      ensures downloads == old(downloads) + [t]
      ensures regions == [memoryChunk] + old(regions)
      ensures pending == old(pending) && nextHandle == old(nextHandle) + 1
    {
      var h := Submit();
      Wait(h);
      PushFrontKeepsInvariant(memoryChunk, regions, stagingBufferSize);
      regions := [memoryChunk] + regions;
      downloads := downloads + [t];
    }

    /**
     * The staging part of imageData: the image goes up in one block; when
     * the first block is too small, everything is waited for and the search
     * repeats, which then always yields a block holding the whole image. The
     * block goes back to the front of the deque with its submit handle.
     */
    method ImageData(storageSize: nat) returns (block: MemoryRegion)
      requires Valid()
      requires 0 < storageSize <= maxStagingBufferSize
      modifies this
      ensures Valid()
      ensures block.size >= storageSize && block.offset + storageSize <= stagingBufferSize
      ensures block.handle == old(nextHandle) && block.handle in pending
      ensures |regions| > 0 && regions[0] == block
      ensures uploads == old(uploads) && downloads == old(downloads)
    {
      block := AcquireWholeBlock(storageSize);
      var h := Submit();
      block := block.(handle := h);
      PushFrontKeepsInvariant(block, regions, stagingBufferSize);
      regions := [block] + regions;
    }

    /**
     * The staging part of getImageData2D: the same single-block retry; the
     * copy is waited for. When the staging buffer has no mapped pointer the
     * function returns early and the block does not go back to the deque.
     */
    method GetImageData2D(storageSize: nat, hasMappedPtr: bool) returns (block: MemoryRegion)
      requires Valid()
      requires 0 < storageSize <= maxStagingBufferSize
      modifies this
      ensures Valid()
      ensures block.size >= storageSize && block.offset + storageSize <= stagingBufferSize
      ensures forall h :: old(nextHandle) <= h < nextHandle ==> h !in pending
      ensures hasMappedPtr ==> |regions| > 0 && regions[0] == block
      ensures !hasMappedPtr ==> DisjointFromAll(block, regions)
      ensures uploads == old(uploads) && downloads == old(downloads)
    {
      block := AcquireWholeBlock(storageSize);
      var h1 := Submit();
      Wait(h1);
      if !hasMappedPtr {
        return;
      }
      var h2 := Submit();
      Wait(h2);
      PushFrontKeepsInvariant(block, regions, stagingBufferSize);
      regions := [block] + regions;
    }

    /** The retry shared by imageData and getImageData2D. */
    method AcquireWholeBlock(storageSize: nat) returns (block: MemoryRegion)
      requires Valid()
      requires 0 < storageSize <= maxStagingBufferSize
      modifies this`pending, this`regions, this`stagingBufferSize, this`stagingBufferCounter,
        this`hasStagingBuffer, this`deferredTaskWaits
      ensures Valid()
      ensures Fits(block, stagingBufferSize) && DisjointFromAll(block, regions)
      ensures block.size >= storageSize && block.handle == EmptyHandle
      ensures pending <= old(pending) && nextHandle == old(nextHandle)
    {
      assert storageSize <= MaxRequestSize;
      block := NextFreeBlock(storageSize);
      if block.size < storageSize {
        WaitAndReset();
        block := NextFreeBlock(storageSize);
      }
    }
  }

  /** The deque nextFreeBlock searches: the old one, or one full region after growth. */
  function GrownRegions(rs: seq<MemoryRegion>, hasStagingBuffer: bool, stagingBufferSize: nat, maxStagingBufferSize: nat, size: nat): seq<MemoryRegion>
    requires size <= MaxRequestSize
  {
    AlignedSizeBounds(size);
    if ShouldGrowStagingBuffer(hasStagingBuffer, stagingBufferSize, GetAlignedSize(size)) then
      var n := NextSize(GetAlignedSize(size), maxStagingBufferSize);
      [MemoryRegion(0, n, n, EmptyHandle)]
    else rs
  }

  /** The pending handles nextFreeBlock searches with: growth waits for every region. */
  function GrownPending(rs: seq<MemoryRegion>, pending: set<SubmitHandle>, hasStagingBuffer: bool, stagingBufferSize: nat, size: nat): set<SubmitHandle>
    requires size < UINT64_LIMIT
  {
    if ShouldGrowStagingBuffer(hasStagingBuffer, stagingBufferSize, GetAlignedSize(size)) then pending - HandlesOf(rs)
    else pending
  }

  /** The single region of a buffer nobody uses. */
  function WholeBuffer(bufferSize: nat): MemoryRegion {
    MemoryRegion(0, bufferSize, bufferSize, EmptyHandle)
  }

  /**
   * The outcome of nextFreeBlock's search on deque `rs` with pending
   * handles `ps`, given the block handed out and the new deque and handles:
   * - the first ready region of at least the aligned size is split: the
   *   block is {its offset, size, aligned size} and a non-empty remainder
   *   goes to the front;
   * - else the BestUpTo candidate, if ready, is handed out whole;
   * - else everything is waited for, and the block is the front of the
   *   buffer with min(size, buffer size), the rest staying in the deque.
   */
  ghost predicate FreeBlockResult(rs: seq<MemoryRegion>, ps: set<SubmitHandle>, size: nat, bufferSize: nat,
                                  chunk: MemoryRegion, regions: seq<MemoryRegion>, pending: set<SubmitHandle>)
    requires size <= MaxRequestSize
  {
    var req := GetAlignedSize(size);
    match FirstFit(rs, ps, req, 0)
    case Some(i) =>
      && chunk == MemoryRegion(rs[i].offset, size, req, EmptyHandle)
      && regions == (if rs[i].size > req then [MemoryRegion(rs[i].offset + req, rs[i].size - req, rs[i].size - req, EmptyHandle)] else []) + Remove(rs, i)
      && pending == ps
    case None =>
      var b := BestUpTo(rs, ps, |rs|);
      if |rs| > 0 && IsReady(ps, rs[b].handle) then
        && chunk == rs[b].(handle := EmptyHandle)
        && regions == Remove(rs, b)
        && pending == ps
      else
        && chunk == MemoryRegion(0, Min(size, bufferSize), Min(req, bufferSize), EmptyHandle)
        && regions == (if bufferSize > req then [MemoryRegion(req, bufferSize - req, bufferSize - req, EmptyHandle)] else [])
        && pending == ps - HandlesOf(rs)
  }

  lemma FirstFitOutcome(rs: seq<MemoryRegion>, ps: set<SubmitHandle>, size: nat, bufferSize: nat, i: nat,
                        chunk: MemoryRegion, regions: seq<MemoryRegion>, pending: set<SubmitHandle>)
    requires size <= MaxRequestSize && FirstFit(rs, ps, GetAlignedSize(size), 0) == Some(i)
    requires chunk == MemoryRegion(rs[i].offset, size, GetAlignedSize(size), EmptyHandle)
    requires regions == (if rs[i].size > GetAlignedSize(size) then [MemoryRegion(rs[i].offset + GetAlignedSize(size), rs[i].size - GetAlignedSize(size), rs[i].size - GetAlignedSize(size), EmptyHandle)] else []) + Remove(rs, i)
    requires pending == ps
    ensures FreeBlockResult(rs, ps, size, bufferSize, chunk, regions, pending)
  {
  }

  lemma BestFitOutcome(rs: seq<MemoryRegion>, ps: set<SubmitHandle>, size: nat, bufferSize: nat,
                       chunk: MemoryRegion, regions: seq<MemoryRegion>, pending: set<SubmitHandle>)
    requires size <= MaxRequestSize && FirstFit(rs, ps, GetAlignedSize(size), 0).None?
    requires |rs| > 0 && IsReady(ps, rs[BestUpTo(rs, ps, |rs|)].handle)
    requires chunk == rs[BestUpTo(rs, ps, |rs|)].(handle := EmptyHandle)
    requires regions == Remove(rs, BestUpTo(rs, ps, |rs|)) && pending == ps
    ensures FreeBlockResult(rs, ps, size, bufferSize, chunk, regions, pending)
  {
  }

  lemma ResetOutcome(rs: seq<MemoryRegion>, ps: set<SubmitHandle>, size: nat, bufferSize: nat,
                     chunk: MemoryRegion, regions: seq<MemoryRegion>, pending: set<SubmitHandle>)
    requires size <= MaxRequestSize && FirstFit(rs, ps, GetAlignedSize(size), 0).None?
    requires !(|rs| > 0 && IsReady(ps, rs[BestUpTo(rs, ps, |rs|)].handle))
    requires chunk == MemoryRegion(0, Min(size, bufferSize), Min(GetAlignedSize(size), bufferSize), EmptyHandle)
    requires regions == (if bufferSize > GetAlignedSize(size) then [MemoryRegion(GetAlignedSize(size), bufferSize - GetAlignedSize(size), bufferSize - GetAlignedSize(size), EmptyHandle)] else [])
    requires pending == ps - HandlesOf(rs)
    ensures FreeBlockResult(rs, ps, size, bufferSize, chunk, regions, pending)
  {
  }

  /**
   * On a buffer nobody uses, the block holds min(size, buffer size) bytes:
   * the single region is either split or handed out whole, never waited for.
   */
  lemma WholeBufferOutcome(ps: set<SubmitHandle>, size: nat, bufferSize: nat,
                           chunk: MemoryRegion, regions: seq<MemoryRegion>, pending: set<SubmitHandle>)
    requires 0 < size <= MaxRequestSize && EmptyHandle !in ps
    requires FreeBlockResult([WholeBuffer(bufferSize)], ps, size, bufferSize, chunk, regions, pending)
    ensures chunk.size >= Min(size, bufferSize)
    ensures pending == ps
  {
    var rs := [WholeBuffer(bufferSize)];
    assert BestUpTo(rs, ps, 1) == 0;
  }
}
