# nvgpu TSG method buffers, BIND_CHANNEL_EX and remap-op translation

A Dafny model of three sequential pieces of the nvgpu GPU driver:

- **The gv11b time-slice-group (TSG) HAL** (`tsg_gv11b.dfy`, module `TsgGv11b`).
  - Enabling a group's channels and ringing the doorbell once.
  - The size formula for the per-PBDMA engine method buffers, evaluated in u32 as the C code does.
  - All-or-nothing allocation of those buffers, with rollback in reverse order.
  - Teardown of the buffers.
  - Choosing the async-CE or GR buffer when a channel is bound.
  - Invalidating the CE buffer when its owner channel faults.

  A `Tsg` class holds the channel list and the nullable buffer array. The HAL, DMA and allocator calls are recorded in a ghost trace. Each method is proved against a function that gives that trace.
- **The t19x `BIND_CHANNEL_EX` ioctl and its dispatcher** (`ioctl_tsg_t19x.dfy`, module `IoctlTsgT19x`).
  - The scheduler control-lock gate.
  - One-time initialisation of dynamic TPC power gating.
  - The subcontext-id bound and the runqueue selector.
  - Release of the mutex, power reference and channel reference on every exit path.

  The method writes the group's and the channel's t19x fields in place, and mirrors the source's `goto` chain with labelled blocks. It is proved equal to the function `BindChannelExEffect`. A stack discipline, `Replay`, shows that every path is balanced.
- **Linux VM remap-op translation** (`vm_remap.dfy`, module `VmRemap`).
  - Validation of map requests (flag mask) and of unmap requests (kinds, flags and offset).
  - Bounds on page counts and offsets against `ULONG_MAX / big_page_size`.
  - Translating flags bit by bit.
  - The in-place copies into the core operation, made only after validation, and the copy of the kinds back into the request.

`kernel_types.dfy` (module `KernelTypes`) holds the fixed-width integer types, errno values and u32 wrap-around arithmetic that the three modules share.

Some constants are not defined in the modelled files. They are taken from the driver's headers:
- `PAGE_SIZE` = 4096.
- `NVGPU_AS_REMAP_OP_FLAGS_CACHEABLE` = 1<<2 and `NVGPU_AS_REMAP_OP_FLAGS_ACCESS_NO_WRITE` = 1<<10.
- `NVGPU_VM_REMAP_OP_FLAGS_CACHEABLE` = 1<<1 and `NVGPU_VM_REMAP_OP_FLAGS_ACCESS_NO_WRITE` = 1<<7.
- `NVGPU_KIND_INVALID` = -1.
- `CHANNEL_INFO_VEID0` = 0.
- `NVGPU_TSG_IOCTL_BIND_CHANNEL_EX` = `_IOWR('T', 11, 24 bytes)`.
- `ULONG_MAX` = 2^64 - 1.
- The errno values.

The flag proofs do not depend on the particular bit positions. They only need each flag to be one distinct bit.

Two behaviours of the code are worth stating outright:
- **Zero copy engines do not give a zero size.** Zero PCEs give 270 bytes, which round up to one page. A zero size, which skips the allocation, arises only when the u32 evaluation of the formula wraps around. `MethodBufferSizeWithoutPce`, `MethodBufferSizeZeroOnlyByWrap` and `MethodBufferSizeZeroByWrap` prove this.
- **The TPC step runs before the subcontext check.** A call that requests TPC power gating with a valid count on a group not yet initialised, and is then rejected for its subcontext id, has already initialised the count (ioctl_tsg_t19x.c:54-63 run before :69-74). A call that does not request power gating initialises nothing. `BindChannelExSubctxBound` and `BindChannelExRejectedSubctxInitialisesTpc` show this.

## Model

| member | source | states |
|---|---|---|
| TsgGv11b.MethodBufferSizeNoWrap | drivers/gpu/nvgpu/hal/fifo/tsg_gv11b.c:104-115 | when the formula does not overflow u32, the size is the exact byte count rounded up to whole pages: positive, page aligned, and less than one page above the byte count |
| TsgGv11b.MethodBufferSize | drivers/gpu/nvgpu/hal/fifo/tsg_gv11b.c:104-115 | the formula evaluated in u32, with roundup in u32; for every PCE count the size is page aligned and is either 0 or at least one page |
| TsgGv11b.MethodBufferSizeWithoutPce | drivers/gpu/nvgpu/hal/fifo/tsg_gv11b.c:109-111 | zero PCEs give 270 bytes and a one-page buffer, not 0 |
| TsgGv11b.MethodBufferSizeZeroOnlyByWrap | drivers/gpu/nvgpu/hal/fifo/tsg_gv11b.c:129-133 | the size is 0, so the allocation is skipped, only when the u32 evaluation wraps around |
| TsgGv11b.MethodBufferSizeZeroByWrap | drivers/gpu/nvgpu/hal/fifo/tsg_gv11b.c:109-111 | that wrap-around happens: 0x76276276 PCEs give size 0 |
| TsgGv11b.EnableCallsInOrder | drivers/gpu/nvgpu/hal/fifo/tsg_gv11b.c:44-49 | the k-th enable call is for the k-th listed channel, with one call per list entry |
| TsgGv11b.EnableCallsCount | drivers/gpu/nvgpu/hal/fifo/tsg_gv11b.c:44-49 | each channel is enabled exactly as often as it occurs in the list, and the enable pass rings no doorbell |
| TsgGv11b.EnableRingsDoorbellOnce | drivers/gpu/nvgpu/hal/fifo/tsg_gv11b.c:51-53 | the doorbell rings once, last and with the last channel, for a non-empty group, and never for an empty one |
| TsgGv11b.Tsg.Enable | drivers/gpu/nvgpu/hal/fifo/tsg_gv11b.c:38-54 | the loop that tracks the last channel appends exactly the enable sequence to the trace |
| TsgGv11b.InvalidateIfOwned | drivers/gpu/nvgpu/hal/fifo/tsg_gv11b.c:78-81 | word 0 of the CE buffer is cleared if and only if word 1 holds the faulting channel; word 1, the rest of the buffer and its address are never changed |
| TsgGv11b.InvalidateIfOwnedStable | drivers/gpu/nvgpu/hal/fifo/tsg_gv11b.c:78-81 | invalidating is idempotent, and after it another channel's unbind leaves the buffer alone |
| TsgGv11b.Tsg.UnbindChannelCheckEngFaulted | drivers/gpu/nvgpu/hal/fifo/tsg_gv11b.c:56-82 | with no fault or no buffers nothing changes and nothing is called; otherwise only buffer 2 changes, as InvalidateIfOwned says, after one read of word 1 and a write only for the owner |
| TsgGv11b.EngMethodBufferIndex | drivers/gpu/nvgpu/hal/fifo/tsg_gv11b.c:95-99 | the async-CE runqueue is chosen if and only if the group is on the fast-CE runlist, and the GR runqueue otherwise |
| TsgGv11b.Tsg.BindChannelEngMethodBuffers | drivers/gpu/nvgpu/hal/fifo/tsg_gv11b.c:84-102 | with no buffers nothing is programmed; otherwise exactly one instance-block write, with the chosen buffer's GPU address |
| TsgGv11b.FirstDmaFailure | drivers/gpu/nvgpu/hal/fifo/tsg_gv11b.c:138-144 | the index where the allocation loop stops: every earlier allocation succeeded and this one, if in range, failed |
| TsgGv11b.Tsg.AllocMapForward | drivers/gpu/nvgpu/hal/fifo/tsg_gv11b.c:138-144 | the forward loop stops at the first failure, allocates runqueues in increasing order up to and including the failing one, and fills every buffer before it |
| TsgGv11b.Tsg.UnmapFreeDown | drivers/gpu/nvgpu/hal/fifo/tsg_gv11b.c:146-149 | the rollback loop frees runqueues k-1 down to 0 |
| TsgGv11b.Tsg.InitEngMethodBuffers | drivers/gpu/nvgpu/hal/fifo/tsg_gv11b.c:117-158 | existing buffers mean no change and no calls; a zero size means no calls; buffers remain if and only if the size is non-zero and every allocation succeeded, each with its own mapping; a failure leaves the field null |
| TsgGv11b.AllocCallsCount | drivers/gpu/nvgpu/hal/fifo/tsg_gv11b.c:138-144 | the allocation loop allocates each runqueue below its bound exactly once, with the computed size |
| TsgGv11b.FreesDownCount | drivers/gpu/nvgpu/hal/fifo/tsg_gv11b.c:146-149 | the rollback frees each runqueue below the failing one exactly once |
| TsgGv11b.InitRollbackFreesAllocated | drivers/gpu/nvgpu/hal/fifo/tsg_gv11b.c:145-155 | a failed initialisation frees exactly the runqueues it allocated, each once, never the failing one, and frees the array it allocated |
| TsgGv11b.FreesUpCount | drivers/gpu/nvgpu/hal/fifo/tsg_gv11b.c:170-172 | teardown frees each runqueue below num_pbdma exactly once |
| TsgGv11b.Tsg.DeinitEngMethodBuffers | drivers/gpu/nvgpu/hal/fifo/tsg_gv11b.c:160-178 | with no buffers nothing is called; otherwise every runqueue is freed in increasing order, then the array; the field always ends null |
| TsgGv11b.InitThenDeinitBalanced | drivers/gpu/nvgpu/hal/fifo/tsg_gv11b.c:117-178 | a successful initialisation followed by teardown allocates and frees every runqueue's buffer exactly once |
| IoctlTsgT19x.BindChannelExControlLocked | drivers/gpu/nvgpu/common/linux/ioctl_tsg_t19x.c:37-41 | when control is locked the result is -EPERM and no state changes; the only events are taking and dropping the control lock |
| IoctlTsgT19x.BindChannelExEarlyFailures | drivers/gpu/nvgpu/common/linux/ioctl_tsg_t19x.c:42-52 | a failed power-up returns its error; a failed channel lookup returns -EINVAL and still drops the power reference; neither changes state |
| IoctlTsgT19x.BindChannelExTpcInit | drivers/gpu/nvgpu/common/linux/ioctl_tsg_t19x.c:54-63 | a first power-gating request fails with -EINVAL, with no change and no bind, if and only if the count is 0 or above max_tpc_count; otherwise it records the count and sets both flags |
| IoctlTsgT19x.BindChannelExTpcConfiguredOnce | drivers/gpu/nvgpu/common/linux/ioctl_tsg_t19x.c:54-67 | once initialised, the count and the flag never change on any path; a call that gets past the control lock, the power-up and the channel lookup without initialising turns gating off and leaves the count alone (an earlier exit changes nothing) |
| IoctlTsgT19x.BindChannelExSubctxBound | drivers/gpu/nvgpu/common/linux/ioctl_tsg_t19x.c:69-74 | the bind HAL is called, for the looked-up channel, if and only if every check passes; an out-of-range subcontext id gives -EINVAL and leaves the channel unchanged |
| IoctlTsgT19x.BindChannelExRunqueueSel | drivers/gpu/nvgpu/common/linux/ioctl_tsg_t19x.c:79-83 | on the bind path the id is stored and is in range; the selector is 1 exactly for an asynchronous id, or if it was already 1; for VEID 0 the selector is unchanged; the result is the bind HAL's |
| IoctlTsgT19x.UnwoundReplays | drivers/gpu/nvgpu/common/linux/ioctl_tsg_t19x.c:84-90 | an early exit releases what it took in reverse order and leaves nothing held |
| IoctlTsgT19x.BindPathReplays | drivers/gpu/nvgpu/common/linux/ioctl_tsg_t19x.c:83-90 | the bind path runs the HAL holding the mutex, the power reference and the channel reference, then releases them in reverse order |
| IoctlTsgT19x.BindChannelExBalanced | drivers/gpu/nvgpu/common/linux/ioctl_tsg_t19x.c:84-90 | on every path each resource taken is released in reverse order, and the bind HAL runs only with all three held |
| IoctlTsgT19x.BindChannelExRejectedSubctxInitialisesTpc | drivers/gpu/nvgpu/common/linux/ioctl_tsg_t19x.c:54-74 | for every call that requests power gating with a valid count on an uninitialised group and has an out-of-range subcontext id: it returns -EINVAL, leaves the channel alone and still records the count; every later call, with any arguments and outcome, keeps that count |
| IoctlTsgT19x.BindChannelExRejectedSubctxExample | drivers/gpu/nvgpu/common/linux/ioctl_tsg_t19x.c:54-74 | one instance: a count of 2 fixed by a call rejected for subcontext 64 survives a corrected retry asking for 3, which succeeds |
| IoctlTsgT19x.ConfigureAndBind | drivers/gpu/nvgpu/common/linux/ioctl_tsg_t19x.c:54-83 | holding all three resources: a rejected TPC request returns -EINVAL and changes nothing; an out-of-range subcontext id returns -EINVAL after the TPC step and leaves the channel alone; otherwise the channel gets its id and selector, the bind HAL runs once and its result is returned |
| IoctlTsgT19x.BindChannelEx | drivers/gpu/nvgpu/common/linux/ioctl_tsg_t19x.c:26-91 | the goto-chained method returns the error, writes the group and channel fields and produces the events that BindChannelExEffect specifies |
| IoctlTsgT19x.IoctlHandlerRoutes | drivers/gpu/nvgpu/common/linux/ioctl_tsg_t19x.c:100-113 | BIND_CHANNEL_EX is exactly the bind; any other command gives -ENOTTY, touches nothing, and every outcome is balanced |
| IoctlTsgT19x.IoctlHandler | drivers/gpu/nvgpu/common/linux/ioctl_tsg_t19x.c:93-115 | the dispatcher's result and effects are those of IoctlHandlerEffect |
| VmRemap.ValidateMapOp | drivers/gpu/nvgpu/os/linux/vm_remap.c:154-165 | a map request is accepted, with 0, if and only if its flags are within CACHEABLE and ACCESS_NO_WRITE; otherwise -EINVAL |
| VmRemap.ValidateUnmapOp | drivers/gpu/nvgpu/os/linux/vm_remap.c:167-179 | an unmap request is accepted if and only if both kinds are invalid and the flags and memory offset are 0; otherwise -EINVAL |
| VmRemap.TranslateAsFlags | drivers/gpu/nvgpu/os/linux/vm_remap.c:181-193 | each core flag is set if and only if its request flag is set, and no other core bit is set |
| VmRemap.TranslateAsFlagsBijective | drivers/gpu/nvgpu/os/linux/vm_remap.c:181-193 | translating and then mapping back keeps exactly the valid request bits, and every valid core flag set is produced |
| VmRemap.ValidateMapOpLossless | drivers/gpu/nvgpu/os/linux/vm_remap.c:154-165 | map validation succeeds if and only if flag translation loses no bit |
| VmRemap.TranslatedAsOpAccepts | drivers/gpu/nvgpu/os/linux/vm_remap.c:195-221 | handle 0 selects the unmap checks and any other handle the map checks; acceptance holds if and only if those checks and the page bounds pass; every rejection is -EINVAL |
| VmRemap.TranslatedAsOpNoOverflow | drivers/gpu/nvgpu/os/linux/vm_remap.c:212-221 | on acceptance the page count is positive, and the count and both offsets times the big page size fit in 64 bits |
| VmRemap.TranslatedAsOpFaithful | drivers/gpu/nvgpu/os/linux/vm_remap.c:223-231 | accepted flags come through bit for bit; an accepted unmap yields a core unmap with handle, flags and offset 0 and invalid kinds |
| VmRemap.CopyBackKinds | drivers/gpu/nvgpu/os/linux/vm_remap.c:237-242 | only the two kinds are taken from the core operation; every other request field is unchanged |
| VmRemap.TranslateRoundTrip | drivers/gpu/nvgpu/os/linux/vm_remap.c:223-241 | translating an accepted request and copying back gives the request unchanged, and a second copy back changes nothing |
| VmRemap.TranslateAsOp | drivers/gpu/nvgpu/os/linux/vm_remap.c:195-235 | on acceptance it returns 0 and writes exactly the translated operation; on rejection it returns the error and leaves vm_op completely unchanged |
| VmRemap.TranslateVmOp | drivers/gpu/nvgpu/os/linux/vm_remap.c:237-242 | the request afterwards is the kinds copied back into it, and nothing else |

## Left out

- `nvgpu_vm_remap_os_buf_get` / `nvgpu_vm_remap_os_buf_put` (drivers/gpu/nvgpu/os/linux/vm_remap.c:42-152): dma-buf get/put, pinning, file-mode checks, comptags and cache flushes are foreign kernel calls with no logic beyond passing results through.
- The virtualised TSG path (`vgpu_tsg_gv11b.c`) is not part of this model: it only forwards a message over a transport that is not visible.
- Locks: `ch_list_lock` is not modelled, since each operation is sequential. `sched->control_lock` appears only as an acquire and a release event in the trace.
- HAL and hardware calls are not computed. These are `channel.enable`, the doorbell, the instance-block write, DMA allocation and mapping, `gk20a_busy`/`gk20a_idle`, the fd-to-channel lookup and the `tsg_bind_channel` HAL. Their results are parameters. Each HAL call, each resource taken and each release is a trace event. A `gk20a_busy` or a channel lookup that fails takes nothing and records no event.
- The PCE count and the fast-CE runlist id are fields of the `Gpu` value. The VM's big page size is a parameter.
- `nvgpu_mem_rd32` and `nvgpu_mem_wr32` in the eng-faulted check are modelled: they read and write the stored words of buffer 2 in `engMethodBuffers`, and each is also a trace event.
- Fresh DMA buffers are modelled as all-zero words. The source relies on no particular initial contents.
- A buffer is a value (address and word sequence) inside the array, not a nested array. The eng-faulted invalidation replaces that element.
- Only the seven translated fields of the remap structures are modelled.
- TsgGv11b.Tsg.InitEngMethodBuffers: the `nvgpu_kzalloc` result is not checked for NULL in the source, and the model takes that allocation as always succeeding.
- TsgGv11b.Tsg.UnbindChannelCheckEngFaulted: requires `num_pbdma > 2` when an engine fault is reported and buffers exist, because the source then indexes buffer 2 without checking.
- TsgGv11b.Tsg.BindChannelEngMethodBuffers: requires, when buffers exist, that `num_pbdma` exceeds the selected runqueue (2 on the fast-CE runlist, 0 elsewhere), because the source indexes that buffer without checking.
- VmRemap.TranslateAsOp: requires a non-zero big page size, because the source divides by it.
- TsgGv11b.InitCalls describes an initialisation that starts with no buffers. With buffers present, InitEngMethodBuffers states separately that nothing happens.
- Group lifecycle (open, release, unbind, abort, `check_and_get`), debug and profiling state and logging are outside these files and are not modelled.
