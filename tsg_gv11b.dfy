/** The gv11b TSG HAL: enabling the channels of a time-slice group, and the
    per-PBDMA engine method buffers a group keeps for recovery from engine
    faults (sizing, all-or-nothing allocation, teardown, binding one of them
    into a channel's instance block, and invalidating the copy-engine one).

    HAL and hardware calls (channel enable, doorbell, DMA allocation, the
    instance-block write, 32-bit memory reads and writes, kzalloc/kfree) are
    recorded in a ghost trace of the group; results the model cannot compute
    (the PCE count, the fast-CE runlist, DMA outcomes) are inputs. */
module TsgGv11b {
  import opened KernelTypes

  /** Runqueue (PBDMA) indices of the GR and async-CE method buffers. */
  const GR_RUNQUE: nat := 0
  const ASYNC_CE_RUNQUE: nat := 2

  /** The parts of struct gk20a this HAL reads. */
  datatype Gpu = Gpu(
    numPbdma: nat,          // g->fifo.num_pbdma
    numPce: u32,            // g->ops.ce.get_num_pce(g)
    fastCeRunlistId: u32)   // nvgpu_engine_get_fast_ce_runlist_id(g)

  /** A mapped memory region (struct nvgpu_mem): its GPU virtual address and
      its contents as 32-bit words. Word 0 of a method buffer is the pending
      method count, word 1 the id of the channel whose methods were saved. */
  datatype NvgpuMem = NvgpuMem(gpuVa: u64, words: seq<u32>)

  /** The outcome of one nvgpu_dma_alloc_map_sys call: an error code (0 on
      success) and the GPU virtual address of the mapping. */
  datatype DmaResult = DmaResult(err: int, gpuVa: u64)

  /** HAL and allocator calls, in the order the group makes them. */
  datatype HalCall =
    | ChannelEnable(chid: u32)
    | RingDoorbell(chid: u32)
    | SetEngMethodBuffer(chid: u32, gpuVa: u64)
    | MemRd32(runque: nat, word: nat)
    | MemWr32(runque: nat, word: nat, value: u32)
    | KzAlloc(count: nat)
    | DmaAllocMapSys(runque: nat, size: u32)
    | DmaUnmapFree(runque: nat)
    | KFree

  // ---------------------------------------------------------------------
  // Method buffer size

  /** The size the formula asks for, in exact arithmetic. */
  function ExactRawSize(numPce: nat): nat
  {
    27 * 5 * ((9 + 1 + 3) * numPce + 2)
  }

  /** The same formula evaluated in u32, as the source does. */
  function RawMethodBufferSize(numPce: u32): u32
  {
    MulU32(27 * 5, AddU32(MulU32(9 + 1 + 3, numPce), 2))
  }

  /** roundup(x, y) = ((x + (y - 1)) / y) * y, in u32. */
  function RoundUpU32(x: u32, y: u32): u32
    requires y > 0
  {
    MulU32(AddU32(x, y - 1) / y, y)
  }

  /** gv11b_tsg_get_eng_method_buffer_size. Whatever the PCE count, the
      size is either 0 or a whole, non-zero number of pages; in particular a
      non-zero size holds both header words. */
  function MethodBufferSize(numPce: u32): (size: u32)
    ensures size % PAGE_SIZE == 0
    ensures size == 0 || size >= PAGE_SIZE
  {
    RoundUpU32(RawMethodBufferSize(numPce), PAGE_SIZE)
  }

  /** Without wrap-around, the size is a positive whole number of pages and
      the smallest one that holds the formula's byte count. */
  lemma MethodBufferSizeNoWrap(numPce: u32)
    requires ExactRawSize(numPce) + PAGE_SIZE - 1 < U32_MOD
    ensures RawMethodBufferSize(numPce) == ExactRawSize(numPce)
    ensures MethodBufferSize(numPce) % PAGE_SIZE == 0
    ensures MethodBufferSize(numPce) > 0
    ensures ExactRawSize(numPce) <= MethodBufferSize(numPce) < ExactRawSize(numPce) + PAGE_SIZE
  {
  }

  /** With no PCEs the formula gives 270 bytes, which rounds up to one page:
      a missing copy engine does not by itself give a zero size. */
  lemma MethodBufferSizeWithoutPce()
    ensures ExactRawSize(0) == 270
    ensures MethodBufferSize(0) == PAGE_SIZE
  {
  }

  /** A zero size, which makes the initialisation skip allocation, happens
      only when the u32 evaluation of the formula wraps around. */
  lemma MethodBufferSizeZeroOnlyByWrap(numPce: u32)
    requires MethodBufferSize(numPce) == 0
    ensures ExactRawSize(numPce) + PAGE_SIZE - 1 >= U32_MOD
  {
  }

  /** ... and it does happen: 13 * 0x76276276 + 2 wraps to exactly 0. */
  lemma MethodBufferSizeZeroByWrap()
    ensures MethodBufferSize(0x7627_6276) == 0
  {
  }

  // ---------------------------------------------------------------------
  // Traces of HAL calls

  /** channel.enable for each listed channel, in list order. */
  function EnableCalls(chList: seq<u32>): seq<HalCall>
  {
    if chList == [] then []
    else EnableCalls(chList[..|chList| - 1]) + [ChannelEnable(chList[|chList| - 1])]
  }

  /** What gv11b_tsg_enable asks of the hardware. */
  function EnableSequence(chList: seq<u32>): seq<HalCall>
  {
    EnableCalls(chList) + if chList == [] then [] else [RingDoorbell(chList[|chList| - 1])]
  }

  /** DMA allocations for runqueues 0 .. count - 1, in increasing order. */
  function AllocCalls(count: nat, size: u32): seq<HalCall>
  {
    if count == 0 then [] else AllocCalls(count - 1, size) + [DmaAllocMapSys(count - 1, size)]
  }

  /** Frees of runqueues hi - 1 down to lo, in decreasing order. */
  function FreesDown(hi: nat, lo: nat): seq<HalCall>
    decreases hi - lo
  {
    if lo >= hi then [] else FreesDown(hi, lo + 1) + [DmaUnmapFree(lo)]
  }

  /** Frees of runqueues 0 .. count - 1, in increasing order. */
  function FreesUp(count: nat): seq<HalCall>
  {
    if count == 0 then [] else FreesUp(count - 1) + [DmaUnmapFree(count - 1)]
  }

  /** How often call c occurs in s. */
  function Count(s: seq<HalCall>, c: HalCall): nat
  {
    if s == [] then 0 else Count(s[..|s| - 1], c) + if s[|s| - 1] == c then 1 else 0
  }

  function Doorbells(s: seq<HalCall>): nat
  {
    if s == [] then 0 else Doorbells(s[..|s| - 1]) + if s[|s| - 1].RingDoorbell? then 1 else 0
  }

  lemma {:induction false} CountAppend(a: seq<HalCall>, b: seq<HalCall>, c: HalCall)
    ensures Count(a + b, c) == Count(a, c) + Count(b, c)
    decreases |b|
  {
    if b != [] {
      var b' := b[..|b| - 1];
      assert (a + b)[..|a + b| - 1] == a + b';
      assert (a + b)[|a + b| - 1] == b[|b| - 1];
      CountAppend(a, b', c);
    } else {
      assert a + b == a;
    }
  }

  lemma {:induction false} DoorbellsAppend(a: seq<HalCall>, b: seq<HalCall>)
    ensures Doorbells(a + b) == Doorbells(a) + Doorbells(b)
    decreases |b|
  {
    if b != [] {
      var b' := b[..|b| - 1];
      assert (a + b)[..|a + b| - 1] == a + b';
      assert (a + b)[|a + b| - 1] == b[|b| - 1];
      DoorbellsAppend(a, b');
    } else {
      assert a + b == a;
    }
  }

  /** The enable calls follow the channel list one for one, in order. */
  lemma {:induction false} EnableCallsInOrder(chList: seq<u32>)
    ensures |EnableCalls(chList)| == |chList|
    ensures forall k :: 0 <= k < |chList| ==> EnableCalls(chList)[k] == ChannelEnable(chList[k])
  {
    if chList != [] {
      EnableCallsInOrder(chList[..|chList| - 1]);
    }
  }

  /** Each channel is enabled exactly as often as it is listed (once, in a
      list without repeats), and the enable pass rings no doorbell. */
  lemma {:induction false} EnableCallsCount(chList: seq<u32>, chid: u32)
    ensures Count(EnableCalls(chList), ChannelEnable(chid)) == multiset(chList)[chid]
    ensures Doorbells(EnableCalls(chList)) == 0
  {
    if chList != [] {
      var init := chList[..|chList| - 1];
      EnableCallsCount(init, chid);
      assert chList == init + [chList[|chList| - 1]];
      assert multiset(chList) == multiset(init) + multiset{chList[|chList| - 1]};
      var s := EnableCalls(chList);
      assert s[..|s| - 1] == EnableCalls(init);
    }
  }

  /** The doorbell rings exactly once for a non-empty group, with the last
      listed channel and after every enable, and never for an empty one. */
  lemma EnableRingsDoorbellOnce(chList: seq<u32>)
    ensures Doorbells(EnableSequence(chList)) == if chList == [] then 0 else 1
    ensures chList != [] ==>
              EnableSequence(chList)[|EnableSequence(chList)| - 1] == RingDoorbell(chList[|chList| - 1])
    ensures chList != [] ==> |EnableSequence(chList)| == |chList| + 1
  {
    EnableCallsCount(chList, 0);
    EnableCallsInOrder(chList);
    var bell: seq<HalCall> := if chList == [] then [] else [RingDoorbell(chList[|chList| - 1])];
    DoorbellsAppend(EnableCalls(chList), bell);
    if chList != [] {
      assert bell[..0] == [];
    }
  }

  /** The first runqueue whose allocation fails, or n if none among 0 .. n-1 does. */
  function FirstDmaFailure(dma: nat -> DmaResult, from: nat, n: nat): (k: nat)
    requires from <= n
    ensures from <= k <= n
    ensures forall j :: from <= j < k ==> dma(j).err == 0
    ensures k < n ==> dma(k).err != 0
    decreases n - from
  {
    if from == n then n
    else if dma(from).err != 0 then from
    else FirstDmaFailure(dma, from + 1, n)
  }

  /** True when gv11b_tsg_init_eng_method_buffers ends with buffers. */
  predicate InitSucceeds(g: Gpu, dma: nat -> DmaResult)
  {
    MethodBufferSize(g.numPce) != 0 && FirstDmaFailure(dma, 0, g.numPbdma) == g.numPbdma
  }

  /** The calls made by an initialisation that starts with no buffers:
      nothing for a zero size; otherwise the array allocation, allocations up
      to and including the first failing one, and on failure the frees of the
      successful ones in reverse order and the free of the array. */
  function InitCalls(g: Gpu, dma: nat -> DmaResult): seq<HalCall>
  {
    var size := MethodBufferSize(g.numPce);
    var k := FirstDmaFailure(dma, 0, g.numPbdma);
    if size == 0 then []
    else if k == g.numPbdma then [KzAlloc(g.numPbdma)] + AllocCalls(g.numPbdma, size)
    else [KzAlloc(g.numPbdma)] + AllocCalls(k + 1, size) + FreesDown(k, 0) + [KFree]
  }

  /** What gv11b_tsg_deinit_eng_method_buffers asks of the allocator. */
  function DeinitCalls(g: Gpu): seq<HalCall>
  {
    FreesUp(g.numPbdma) + [KFree]
  }

  lemma {:induction false} AllocCallsCount(count: nat, size: u32, c: HalCall)
    ensures Count(AllocCalls(count, size), c) ==
              if c.DmaAllocMapSys? && c.runque < count && c.size == size then 1 else 0
  {
    if count > 0 {
      var s := AllocCalls(count, size);
      assert s[..|s| - 1] == AllocCalls(count - 1, size);
      AllocCallsCount(count - 1, size, c);
    }
  }

  /** Count over four consecutive pieces of a trace. */
  lemma CountAppend4(a: seq<HalCall>, b: seq<HalCall>, c: seq<HalCall>, d: seq<HalCall>, x: HalCall)
    ensures Count(a + b + c + d, x) == Count(a, x) + Count(b, x) + Count(c, x) + Count(d, x)
  {
    CountAppend(a, b, x);
    CountAppend(a + b, c, x);
    CountAppend(a + b + c, d, x);
  }

  lemma CountSingle(x: HalCall, y: HalCall)
    ensures Count([x], y) == if x == y then 1 else 0
  {
  }

  lemma {:induction false} FreesDownCount(hi: nat, lo: nat, runque: nat)
    ensures Count(FreesDown(hi, lo), DmaUnmapFree(runque)) == if lo <= runque < hi then 1 else 0
    decreases hi - lo
  {
    if lo < hi {
      var s := FreesDown(hi, lo);
      assert s[..|s| - 1] == FreesDown(hi, lo + 1);
      FreesDownCount(hi, lo + 1, runque);
    }
  }

  lemma {:induction false} FreesUpCount(count: nat, runque: nat)
    ensures Count(FreesUp(count), DmaUnmapFree(runque)) == if runque < count then 1 else 0
  {
    if count > 0 {
      var s := FreesUp(count);
      assert s[..|s| - 1] == FreesUp(count - 1);
      FreesUpCount(count - 1, runque);
    }
  }

  /** A failed initialisation frees exactly the runqueues it allocated (each
      once), never the one whose allocation failed, and frees the array it
      allocated. */
  lemma InitRollbackFreesAllocated(g: Gpu, dma: nat -> DmaResult, runque: nat)
    requires MethodBufferSize(g.numPce) != 0 && !InitSucceeds(g, dma)
    ensures var k := FirstDmaFailure(dma, 0, g.numPbdma);
            Count(InitCalls(g, dma), DmaUnmapFree(runque)) == (if runque < k then 1 else 0)
    ensures Count(InitCalls(g, dma), KzAlloc(g.numPbdma)) == 1
    ensures Count(InitCalls(g, dma), KFree) == 1
  {
    var size := MethodBufferSize(g.numPce);
    var k := FirstDmaFailure(dma, 0, g.numPbdma);
    assert InitCalls(g, dma) == [KzAlloc(g.numPbdma)] + AllocCalls(k + 1, size) + FreesDown(k, 0) + [KFree];
    RollbackTraceCounts(g.numPbdma, k, size, runque);
  }

  /** The counts behind InitRollbackFreesAllocated, for any array length n,
      failing runqueue k and buffer size. */
  lemma RollbackTraceCounts(n: nat, k: nat, size: u32, runque: nat)
    ensures var t := [KzAlloc(n)] + AllocCalls(k + 1, size) + FreesDown(k, 0) + [KFree];
            Count(t, DmaUnmapFree(runque)) == (if runque < k then 1 else 0) &&
            Count(t, KzAlloc(n)) == 1 &&
            Count(t, KFree) == 1
  {
    var head: seq<HalCall> := [KzAlloc(n)];
    var allocs := AllocCalls(k + 1, size);
    var frees := FreesDown(k, 0);
    var tail: seq<HalCall> := [KFree];
    CountAppend4(head, allocs, frees, tail, DmaUnmapFree(runque));
    CountAppend4(head, allocs, frees, tail, KzAlloc(n));
    CountAppend4(head, allocs, frees, tail, KFree);
    AllocCallsCount(k + 1, size, DmaUnmapFree(runque));
    AllocCallsCount(k + 1, size, KFree);
    AllocCallsCount(k + 1, size, KzAlloc(n));
    FreesDownCount(k, 0, runque);
    FreesDownNoOther(k, 0);
    CountSingle(KzAlloc(n), DmaUnmapFree(runque));
    CountSingle(KzAlloc(n), KzAlloc(n));
    CountSingle(KzAlloc(n), KFree);
    CountSingle(KFree, DmaUnmapFree(runque));
    CountSingle(KFree, KzAlloc(n));
    CountSingle(KFree, KFree);
  }

  lemma {:induction false} FreesDownNoOther(hi: nat, lo: nat)
    ensures forall c: HalCall :: !c.DmaUnmapFree? ==> Count(FreesDown(hi, lo), c) == 0
    decreases hi - lo
  {
    if lo < hi {
      var s := FreesDown(hi, lo);
      assert s[..|s| - 1] == FreesDown(hi, lo + 1);
      FreesDownNoOther(hi, lo + 1);
    }
  }

  /** Over a group's life, a successful initialisation followed by the
      teardown allocates and frees every runqueue's buffer exactly once. */
  lemma InitThenDeinitBalanced(g: Gpu, dma: nat -> DmaResult, runque: nat)
    requires InitSucceeds(g, dma)
    ensures var life := InitCalls(g, dma) + DeinitCalls(g);
            Count(life, DmaAllocMapSys(runque, MethodBufferSize(g.numPce))) == (if runque < g.numPbdma then 1 else 0) &&
            Count(life, DmaUnmapFree(runque)) == (if runque < g.numPbdma then 1 else 0)
  {
    var size := MethodBufferSize(g.numPce);
    assert InitCalls(g, dma) + DeinitCalls(g) ==
           [KzAlloc(g.numPbdma)] + AllocCalls(g.numPbdma, size) + FreesUp(g.numPbdma) + [KFree];
    LifetimeTraceCounts(g.numPbdma, size, runque);
  }

  /** The counts behind InitThenDeinitBalanced, for any array length n and
      buffer size. */
  lemma LifetimeTraceCounts(n: nat, size: u32, runque: nat)
    ensures var t := [KzAlloc(n)] + AllocCalls(n, size) + FreesUp(n) + [KFree];
            Count(t, DmaAllocMapSys(runque, size)) == (if runque < n then 1 else 0) &&
            Count(t, DmaUnmapFree(runque)) == (if runque < n then 1 else 0)
  {
    var head: seq<HalCall> := [KzAlloc(n)];
    var allocs := AllocCalls(n, size);
    var frees := FreesUp(n);
    var tail: seq<HalCall> := [KFree];
    CountAppend4(head, allocs, frees, tail, DmaAllocMapSys(runque, size));
    CountAppend4(head, allocs, frees, tail, DmaUnmapFree(runque));
    AllocCallsCount(n, size, DmaAllocMapSys(runque, size));
    AllocCallsCount(n, size, DmaUnmapFree(runque));
    FreesUpCount(n, runque);
    FreesUpNoOther(n);
    CountSingle(KzAlloc(n), DmaAllocMapSys(runque, size));
    CountSingle(KzAlloc(n), DmaUnmapFree(runque));
    CountSingle(KFree, DmaAllocMapSys(runque, size));
    CountSingle(KFree, DmaUnmapFree(runque));
  }

  lemma {:induction false} FreesUpNoOther(count: nat)
    ensures forall c: HalCall :: !c.DmaUnmapFree? ==> Count(FreesUp(count), c) == 0
  {
    if count > 0 {
      var s := FreesUp(count);
      assert s[..|s| - 1] == FreesUp(count - 1);
      FreesUpNoOther(count - 1);
    }
  }

  // ---------------------------------------------------------------------
  // Buffer selection and invalidation

  /** The runqueue whose method buffer a channel of the group is bound to:
      the async-CE one on the fast-CE runlist, the GR one elsewhere. */
  function EngMethodBufferIndex(runlistId: u32, fastCeRunlistId: u32): (runque: nat)
    ensures runque == ASYNC_CE_RUNQUE <==> runlistId == fastCeRunlistId
    ensures runque == GR_RUNQUE <==> runlistId != fastCeRunlistId
  {
    if runlistId == fastCeRunlistId then ASYNC_CE_RUNQUE else GR_RUNQUE
  }

  /** The CE method buffer after a faulted channel's unbind: its method count
      is cleared if, and only if, the buffer holds that channel's methods. */
  function InvalidateIfOwned(mem: NvgpuMem, chid: u32): (r: NvgpuMem)
    requires |mem.words| >= 2
    ensures r.gpuVa == mem.gpuVa && |r.words| == |mem.words|
    ensures r.words[1..] == mem.words[1..]
    ensures mem.words[1] == chid ==> r.words[0] == 0
    ensures mem.words[1] != chid ==> r == mem
  {
    if mem.words[1] == chid then mem.(words := mem.words[0 := 0]) else mem
  }

  /** Invalidating twice is invalidating once, and once a buffer has been
      invalidated for its owner no other channel's unbind touches it. */
  lemma InvalidateIfOwnedStable(mem: NvgpuMem, chid: u32, other: u32)
    requires |mem.words| >= 2
    ensures InvalidateIfOwned(InvalidateIfOwned(mem, chid), chid) == InvalidateIfOwned(mem, chid)
    ensures other != mem.words[1] ==>
              InvalidateIfOwned(InvalidateIfOwned(mem, chid), other) == InvalidateIfOwned(mem, chid)
  {
  }

  /** The calls the eng-faulted check makes on a group that has buffers. */
  function CheckEngFaultedCalls(mem: NvgpuMem, chid: u32): seq<HalCall>
    requires |mem.words| >= 2
  {
    [MemRd32(ASYNC_CE_RUNQUE, 1)] + if mem.words[1] == chid then [MemWr32(ASYNC_CE_RUNQUE, 0, 0)] else []
  }

  /** A time-slice group as the gv11b HAL sees it. */
  class Tsg {
    const g: Gpu
    const runlistId: u32
    /** The bound channels (ch_list), by channel id, in list order. */
    var chList: seq<u32>
    /** One method buffer per PBDMA, or null (eng_method_buffers). */
    var engMethodBuffers: array?<NvgpuMem>
    ghost var trace: seq<HalCall>

    /** Buffers, when present, come one per PBDMA, each of the formula's size. */
    ghost predicate Valid()
      reads this, engMethodBuffers
    {
      engMethodBuffers != null ==>
        engMethodBuffers.Length == g.numPbdma &&
        MethodBufferSize(g.numPce) != 0 &&
        forall i :: 0 <= i < engMethodBuffers.Length ==>
          |engMethodBuffers[i].words| == MethodBufferSize(g.numPce) / 4
    }

    constructor (g: Gpu, runlistId: u32, chList: seq<u32>)
      ensures Valid()
      ensures this.g == g && this.runlistId == runlistId && this.chList == chList
      ensures engMethodBuffers == null && trace == []
    {
      this.g := g;
      this.runlistId := runlistId;
      this.chList := chList;
      engMethodBuffers := null;
      trace := [];
    }

    /** gv11b_tsg_enable: enable every channel, then ring the doorbell once
        with the last one. */
    method Enable()
      modifies this`trace
      ensures trace == old(trace) + EnableSequence(chList)
    {
      var lastCh: Option<u32> := None;
      var i := 0;
      while i < |chList|
        invariant 0 <= i <= |chList|
        invariant trace == old(trace) + EnableCalls(chList[..i])
        invariant lastCh == if i == 0 then None else Some(chList[i - 1])
      {
        trace := trace + [ChannelEnable(chList[i])];
        lastCh := Some(chList[i]);
        i := i + 1;
        assert chList[..i][..i - 1] == chList[..i - 1];
      }
      assert chList[..i] == chList;
      if lastCh.Some? {
        trace := trace + [RingDoorbell(lastCh.value)];
      }
    }

    /** gv11b_tsg_unbind_channel_check_eng_faulted: on an engine fault, clear
        the async-CE buffer's method count if it holds this channel's methods. */
    method UnbindChannelCheckEngFaulted(chid: u32, engFaulted: bool)
      requires Valid()
      requires engFaulted && engMethodBuffers != null ==> g.numPbdma > ASYNC_CE_RUNQUE
      modifies engMethodBuffers, this`trace
      ensures Valid()
      ensures !engFaulted || engMethodBuffers == null ==>
                trace == old(trace) &&
                (engMethodBuffers != null ==> engMethodBuffers[..] == old(engMethodBuffers[..]))
      ensures engFaulted && engMethodBuffers != null ==>
                var mem := old(engMethodBuffers[ASYNC_CE_RUNQUE]);
                |mem.words| >= 2 &&
                engMethodBuffers[..] == old(engMethodBuffers[..])[ASYNC_CE_RUNQUE := InvalidateIfOwned(mem, chid)] &&
                trace == old(trace) + CheckEngFaultedCalls(mem, chid)
    {
      if !engFaulted || engMethodBuffers == null {
        return;
      }
      var mem := engMethodBuffers[ASYNC_CE_RUNQUE];
      trace := trace + [MemRd32(ASYNC_CE_RUNQUE, 1)];
      if chid == mem.words[1] {
        engMethodBuffers[ASYNC_CE_RUNQUE] := mem.(words := mem.words[0 := 0]);
        trace := trace + [MemWr32(ASYNC_CE_RUNQUE, 0, 0)];
      }
    }

    /** gv11b_tsg_bind_channel_eng_method_buffers: point the channel's
        instance block at the async-CE buffer on the fast-CE runlist and at
        the GR buffer elsewhere; nothing when the group has no buffers. */
    method BindChannelEngMethodBuffers(chid: u32)
      requires Valid()
      requires engMethodBuffers != null ==> g.numPbdma > EngMethodBufferIndex(runlistId, g.fastCeRunlistId)
      modifies this`trace
      ensures engMethodBuffers == null ==> trace == old(trace)
      ensures engMethodBuffers != null ==>
                trace == old(trace) +
                  [SetEngMethodBuffer(chid, engMethodBuffers[EngMethodBufferIndex(runlistId, g.fastCeRunlistId)].gpuVa)]
    {
      if engMethodBuffers == null {
        return;
      }
      var gpuVa: u64;
      if runlistId == g.fastCeRunlistId {
        gpuVa := engMethodBuffers[ASYNC_CE_RUNQUE].gpuVa;
      } else {
        gpuVa := engMethodBuffers[GR_RUNQUE].gpuVa;
      }
      trace := trace + [SetEngMethodBuffer(chid, gpuVa)];
    }

    /** gv11b_tsg_init_eng_method_buffers: allocate one buffer per PBDMA, all
        or nothing; dma(i) is the outcome of the allocation for runqueue i. */
    method InitEngMethodBuffers(dma: nat -> DmaResult)
      requires Valid()
      modifies this`engMethodBuffers, this`trace
      ensures Valid()
      ensures old(engMethodBuffers) != null ==>
                engMethodBuffers == old(engMethodBuffers) && trace == old(trace)
      ensures old(engMethodBuffers) == null ==>
                trace == old(trace) + InitCalls(g, dma) &&
                (engMethodBuffers != null <==> InitSucceeds(g, dma))
      ensures old(engMethodBuffers) == null && engMethodBuffers != null ==>
                fresh(engMethodBuffers) &&
                forall i :: 0 <= i < engMethodBuffers.Length ==>
                  engMethodBuffers[i].gpuVa == dma(i).gpuVa
    {
      if engMethodBuffers != null {
        return;
      }
      var size := MethodBufferSize(g.numPce);
      if size == 0 {
        return;
      }
      var n := g.numPbdma;
      var bufs := new NvgpuMem[n](_ => NvgpuMem(0, []));
      engMethodBuffers := bufs;
      trace := trace + [KzAlloc(n)];

      var err, runque := AllocMapForward(bufs, size, dma);
      if err != 0 {
        UnmapFreeDown(runque);
        trace := trace + [KFree];
        engMethodBuffers := null;
        return;
      }
    }

    /** The allocation loop of the initialisation: map a buffer of the given
        size for each runqueue, stopping at the first failure. */
    method AllocMapForward(bufs: array<NvgpuMem>, size: u32, dma: nat -> DmaResult)
        returns (err: int, runque: nat)
      modifies bufs, this`trace
      ensures runque <= bufs.Length
      ensures err == 0 <==> runque == bufs.Length
      ensures runque == FirstDmaFailure(dma, 0, bufs.Length)
      ensures err == 0 ==> trace == old(trace) + AllocCalls(runque, size)
      ensures err != 0 ==> trace == old(trace) + AllocCalls(runque + 1, size)
      ensures forall j :: 0 <= j < runque ==> bufs[j] == NvgpuMem(dma(j).gpuVa, seq(size / 4, _ => 0))
    {
      var zeros: seq<u32> := seq(size / 4, _ => 0);
      err := 0;
      runque := 0;
      while runque < bufs.Length
        invariant runque <= bufs.Length
        invariant err == 0
        invariant forall j :: 0 <= j < runque ==> dma(j).err == 0
        invariant forall j :: 0 <= j < runque ==> bufs[j] == NvgpuMem(dma(j).gpuVa, zeros)
        invariant trace == old(trace) + AllocCalls(runque, size)
      {
        var r := dma(runque);
        trace := trace + [DmaAllocMapSys(runque, size)];
        err := r.err;
        if err != 0 {
          break;
        }
        bufs[runque] := NvgpuMem(r.gpuVa, zeros);
        runque := runque + 1;
      }
    }

    /** The rollback loop of the initialisation: free runqueues count - 1
        down to 0. */
    method UnmapFreeDown(count: nat)
      modifies this`trace
      ensures trace == old(trace) + FreesDown(count, 0)
    {
      var i: int := count - 1;
      while i >= 0
        invariant -1 <= i < count
        invariant trace == old(trace) + FreesDown(count, i + 1)
      {
        trace := trace + [DmaUnmapFree(i)];
        i := i - 1;
      }
    }

    /** gv11b_tsg_deinit_eng_method_buffers: free every buffer and the array. */
    method DeinitEngMethodBuffers()
      requires Valid()
      modifies this`engMethodBuffers, this`trace
      ensures Valid() && engMethodBuffers == null
      ensures old(engMethodBuffers) == null ==> trace == old(trace)
      ensures old(engMethodBuffers) != null ==> trace == old(trace) + DeinitCalls(g)
    {
      if engMethodBuffers == null {
        return;
      }
      var runque := 0;
      while runque < g.numPbdma
        invariant runque <= g.numPbdma
        invariant trace == old(trace) + FreesUp(runque)
      {
        trace := trace + [DmaUnmapFree(runque)];
        runque := runque + 1;
      }
      trace := trace + [KFree];
      engMethodBuffers := null;
    }
  }
}
