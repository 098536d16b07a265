/** Translation of a user-space remap request (struct nvgpu_as_remap_op) into
    the core VM remap operation (struct nvgpu_vm_remap_op) and back.

    A request with mem_handle 0 unmaps and must carry no kinds, flags or
    memory offset; any other request maps and may carry only the CACHEABLE
    and ACCESS_NO_WRITE flags. Page counts and offsets are bounded so that
    multiplying them by the big page size cannot overflow 64 bits. Only an
    accepted request writes the output operation. */
module VmRemap {
  import opened KernelTypes

  /** Request flags (uapi NVGPU_AS_REMAP_OP_FLAGS_*). */
  const AS_FLAGS_CACHEABLE: bv32 := 1 << 2
  const AS_FLAGS_ACCESS_NO_WRITE: bv32 := 1 << 10
  const AS_VALID_FLAGS: bv32 := AS_FLAGS_CACHEABLE | AS_FLAGS_ACCESS_NO_WRITE

  /** Core flags (NVGPU_VM_REMAP_OP_FLAGS_*). */
  const VM_FLAGS_CACHEABLE: bv32 := 1 << 1
  const VM_FLAGS_ACCESS_NO_WRITE: bv32 := 1 << 7
  const VM_VALID_FLAGS: bv32 := VM_FLAGS_CACHEABLE | VM_FLAGS_ACCESS_NO_WRITE

  /** NVGPU_KIND_INVALID */
  const KIND_INVALID: s16 := -1

  /** The fields of struct nvgpu_as_remap_op, as a value. */
  datatype AsOp = AsOp(
    flags: bv32,
    comprKind: s16,
    incomprKind: s16,
    memHandle: u32,
    memOffsetInPages: u64,
    virtOffsetInPages: u64,
    numPages: u64)

  /** The fields of struct nvgpu_vm_remap_op that the translation writes. */
  datatype VmOp = VmOp(
    flags: bv32,
    comprKind: s16,
    incomprKind: s16,
    memHandle: u32,
    memOffsetInPages: u64,
    virtOffsetInPages: u64,
    numPages: u64)

  datatype Translation = Translated(vmOp: VmOp) | Rejected(err: int)

  // ---------------------------------------------------------------------
  // Validation and flag translation

  /** nvgpu_vm_remap_validate_map_op: only CACHEABLE and ACCESS_NO_WRITE. */
  function ValidateMapOp(op: AsOp): (err: int)
    ensures err == 0 || err == -EINVAL
    ensures err == 0 <==> op.flags | AS_VALID_FLAGS == AS_VALID_FLAGS
  {
    if op.flags & !AS_VALID_FLAGS != 0 then -EINVAL else 0
  }

  /** nvgpu_vm_remap_validate_unmap_op: an unmap carries no kinds, no flags
      and no memory offset. */
  function ValidateUnmapOp(op: AsOp): (err: int)
    ensures err == 0 || err == -EINVAL
    ensures err == 0 <==>
              op.comprKind == KIND_INVALID && op.incomprKind == KIND_INVALID &&
              op.flags == 0 && op.memOffsetInPages == 0
  {
    if op.comprKind != KIND_INVALID || op.incomprKind != KIND_INVALID ||
       op.flags != 0 || op.memOffsetInPages != 0
    then -EINVAL
    else 0
  }

  /** nvgpu_vm_remap_translate_as_flags: each request flag becomes the
      matching core flag, and no other core flag is set. */
  function TranslateAsFlags(flags: bv32): (r: bv32)
    ensures (r & VM_FLAGS_CACHEABLE != 0) <==> (flags & AS_FLAGS_CACHEABLE != 0)
    ensures (r & VM_FLAGS_ACCESS_NO_WRITE != 0) <==> (flags & AS_FLAGS_ACCESS_NO_WRITE != 0)
    ensures r & !VM_VALID_FLAGS == 0
  {
    var none: bv32 := 0;
    var cacheable := if flags & AS_FLAGS_CACHEABLE != 0 then none | VM_FLAGS_CACHEABLE else none;
    if flags & AS_FLAGS_ACCESS_NO_WRITE != 0 then cacheable | VM_FLAGS_ACCESS_NO_WRITE else cacheable
  }

  /** The reverse correspondence, from core flags to request flags. */
  function RequestFlagsOf(coreFlags: bv32): bv32
  {
    (if coreFlags & VM_FLAGS_CACHEABLE != 0 then AS_FLAGS_CACHEABLE else 0) |
    (if coreFlags & VM_FLAGS_ACCESS_NO_WRITE != 0 then AS_FLAGS_ACCESS_NO_WRITE else 0)
  }

  /** Translation keeps exactly the valid request flags, and every valid
      combination of core flags is the translation of one request. */
  lemma TranslateAsFlagsBijective(flags: bv32, coreFlags: bv32)
    ensures RequestFlagsOf(TranslateAsFlags(flags)) == flags & AS_VALID_FLAGS
    ensures coreFlags & !VM_VALID_FLAGS == 0 ==> TranslateAsFlags(RequestFlagsOf(coreFlags)) == coreFlags
  {
  }

  /** A map request passes validation exactly when translating its flags
      loses nothing. */
  lemma ValidateMapOpLossless(op: AsOp)
    ensures ValidateMapOp(op) == 0 <==> RequestFlagsOf(TranslateAsFlags(op.flags)) == op.flags
  {
  }

  // ---------------------------------------------------------------------
  // Whole-operation translation

  /** Page counts and offsets must not exceed ULONG_MAX / big page size. */
  predicate PagesInRange(op: AsOp, bigPageSize: u64)
    requires bigPageSize > 0
  {
    var maxNumPages := ULONG_MAX / bigPageSize;
    0 < op.numPages <= maxNumPages &&
    op.memOffsetInPages <= maxNumPages && op.virtOffsetInPages <= maxNumPages
  }

  /** nvgpu_vm_remap_translate_as_op as a function of the request. */
  function TranslatedAsOp(op: AsOp, bigPageSize: u64): Translation
    requires bigPageSize > 0
  {
    var err := if op.memHandle == 0 then ValidateUnmapOp(op) else ValidateMapOp(op);
    if err != 0 then Rejected(err)
    else if !PagesInRange(op, bigPageSize) then Rejected(-EINVAL)
    else Translated(VmOp(TranslateAsFlags(op.flags), op.comprKind, op.incomprKind, op.memHandle,
                         op.memOffsetInPages, op.virtOffsetInPages, op.numPages))
  }

  /** A request is accepted exactly when it is a clean unmap (handle 0) or
      a map with only valid flags (any other handle), and its page count and
      offsets are in range; every rejection is -EINVAL. */
  lemma TranslatedAsOpAccepts(op: AsOp, bigPageSize: u64)
    requires bigPageSize > 0
    ensures TranslatedAsOp(op, bigPageSize).Translated? <==>
              (if op.memHandle == 0
               then op.comprKind == KIND_INVALID && op.incomprKind == KIND_INVALID &&
                    op.flags == 0 && op.memOffsetInPages == 0
               else op.flags & !AS_VALID_FLAGS == 0) &&
              PagesInRange(op, bigPageSize)
    ensures TranslatedAsOp(op, bigPageSize).Rejected? ==> TranslatedAsOp(op, bigPageSize).err == -EINVAL
  {
    MapFlagsWithinMask(op.flags);
    var err := if op.memHandle == 0 then ValidateUnmapOp(op) else ValidateMapOp(op);
    assert err == 0 || err == -EINVAL;
  }

  lemma MapFlagsWithinMask(flags: bv32)
    ensures flags | AS_VALID_FLAGS == AS_VALID_FLAGS <==> flags & !AS_VALID_FLAGS == 0
  {
  }

  lemma MulBelowQuotient(n: nat, p: nat, m: nat)
    requires p > 0 && n <= m / p
    ensures n * p <= m
  {
    assert m / p * p <= m;
    assert n * p <= m / p * p;
  }

  /** An accepted request's page count and offsets, scaled to bytes by the
      big page size, fit in 64 bits, and the count is positive. */
  lemma TranslatedAsOpNoOverflow(op: AsOp, bigPageSize: u64)
    requires bigPageSize > 0 && TranslatedAsOp(op, bigPageSize).Translated?
    ensures var v := TranslatedAsOp(op, bigPageSize).vmOp;
            v.numPages > 0 &&
            v.numPages * bigPageSize <= ULONG_MAX &&
            v.memOffsetInPages * bigPageSize <= ULONG_MAX &&
            v.virtOffsetInPages * bigPageSize <= ULONG_MAX
  {
    MulBelowQuotient(op.numPages, bigPageSize, ULONG_MAX);
    MulBelowQuotient(op.memOffsetInPages, bigPageSize, ULONG_MAX);
    MulBelowQuotient(op.virtOffsetInPages, bigPageSize, ULONG_MAX);
  }

  /** An accepted request's flags are carried over bit for bit; an accepted
      unmap yields an unmap: handle, flags and memory offset 0, kinds invalid. */
  lemma TranslatedAsOpFaithful(op: AsOp, bigPageSize: u64)
    requires bigPageSize > 0 && TranslatedAsOp(op, bigPageSize).Translated?
    ensures var v := TranslatedAsOp(op, bigPageSize).vmOp;
            RequestFlagsOf(v.flags) == op.flags &&
            (op.memHandle == 0 ==>
               v.memHandle == 0 && v.flags == 0 && v.memOffsetInPages == 0 &&
               v.comprKind == KIND_INVALID && v.incomprKind == KIND_INVALID)
  {
  }

  /** nvgpu_vm_remap_translate_vm_op as a function: only the two kinds are
      copied back into the request. */
  function CopyBackKinds(asOp: AsOp, vmOp: VmOp): (r: AsOp)
    ensures r.comprKind == vmOp.comprKind && r.incomprKind == vmOp.incomprKind
    ensures r.(comprKind := asOp.comprKind, incomprKind := asOp.incomprKind) == asOp
  {
    asOp.(comprKind := vmOp.comprKind, incomprKind := vmOp.incomprKind)
  }

  /** Translating a request and copying the result back gives the request
      unchanged, and the copy back is idempotent. */
  lemma TranslateRoundTrip(op: AsOp, bigPageSize: u64)
    requires bigPageSize > 0 && TranslatedAsOp(op, bigPageSize).Translated?
    ensures CopyBackKinds(op, TranslatedAsOp(op, bigPageSize).vmOp) == op
    ensures var v := TranslatedAsOp(op, bigPageSize).vmOp;
            CopyBackKinds(CopyBackKinds(op, v), v) == CopyBackKinds(op, v)
  {
  }

  // ---------------------------------------------------------------------
  // The structures the translation writes in place

  class AsRemapOp {
    var flags: bv32
    var comprKind: s16
    var incomprKind: s16
    var memHandle: u32
    var memOffsetInPages: u64
    var virtOffsetInPages: u64
    var numPages: u64

    function Value(): AsOp
      reads this
    {
      AsOp(flags, comprKind, incomprKind, memHandle, memOffsetInPages, virtOffsetInPages, numPages)
    }

    constructor (op: AsOp)
      ensures Value() == op
    {
      flags, comprKind, incomprKind, memHandle := op.flags, op.comprKind, op.incomprKind, op.memHandle;
      memOffsetInPages, virtOffsetInPages, numPages := op.memOffsetInPages, op.virtOffsetInPages, op.numPages;
    }
  }

  class VmRemapOp {
    var flags: bv32
    var comprKind: s16
    var incomprKind: s16
    var memHandle: u32
    var memOffsetInPages: u64
    var virtOffsetInPages: u64
    var numPages: u64

    function Value(): VmOp
      reads this
    {
      VmOp(flags, comprKind, incomprKind, memHandle, memOffsetInPages, virtOffsetInPages, numPages)
    }

    constructor (op: VmOp)
      ensures Value() == op
    {
      flags, comprKind, incomprKind, memHandle := op.flags, op.comprKind, op.incomprKind, op.memHandle;
      memOffsetInPages, virtOffsetInPages, numPages := op.memOffsetInPages, op.virtOffsetInPages, op.numPages;
    }
  }

  /** nvgpu_vm_remap_translate_as_op: validate asOp and, only if it is
      accepted, fill in vmOp. bigPageSize is the VM's big page size. */
  method TranslateAsOp(bigPageSize: u64, vmOp: VmRemapOp, asOp: AsRemapOp) returns (err: int)
    requires bigPageSize > 0
    modifies vmOp
    ensures var t := TranslatedAsOp(asOp.Value(), bigPageSize);
            (t.Translated? ==> err == 0 && vmOp.Value() == t.vmOp) &&
            (t.Rejected? ==> err == t.err && vmOp.Value() == old(vmOp.Value()))
  {
    if asOp.memHandle == 0 {
      err := ValidateUnmapOp(asOp.Value());
    } else {
      err := ValidateMapOp(asOp.Value());
    }
    if err != 0 {
      return;
    }

    var pageSize := bigPageSize;
    var maxNumPages := ULONG_MAX / pageSize;
    if asOp.numPages == 0 || asOp.numPages > maxNumPages ||
       asOp.memOffsetInPages > maxNumPages || asOp.virtOffsetInPages > maxNumPages {
      err := -EINVAL;
      return;
    }

    vmOp.flags := TranslateAsFlags(asOp.flags);
    vmOp.comprKind := asOp.comprKind;
    vmOp.incomprKind := asOp.incomprKind;
    vmOp.memHandle := asOp.memHandle;
    vmOp.memOffsetInPages := asOp.memOffsetInPages;
    vmOp.virtOffsetInPages := asOp.virtOffsetInPages;
    vmOp.numPages := asOp.numPages;
    return 0;
  }

  /** nvgpu_vm_remap_translate_vm_op: copy the kinds back into the request. */
  method TranslateVmOp(asOp: AsRemapOp, vmOp: VmRemapOp)
    modifies asOp
    ensures asOp.Value() == CopyBackKinds(old(asOp.Value()), vmOp.Value())
  {
    asOp.comprKind := vmOp.comprKind;
    asOp.incomprKind := vmOp.incomprKind;
  }
}
