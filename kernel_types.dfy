/** Fixed-width integer types, error numbers and platform constants shared by
    the TSG, ioctl and remap models. C's unsigned arithmetic is written out
    explicitly where the source relies on it. */
module KernelTypes {

  const U32_MOD: int := 0x1_0000_0000
  /** ULONG_MAX on the 64-bit kernels this driver runs on. */
  const ULONG_MAX: int := 0xFFFF_FFFF_FFFF_FFFF

  type u8 = x: int | 0 <= x < 0x100
  type u32 = x: int | 0 <= x < U32_MOD
  type u64 = x: int | 0 <= x <= ULONG_MAX
  type s16 = x: int | -0x8000 <= x < 0x8000

  /** Kernel page size (PAGE_SIZE) on the supported platforms. */
  const PAGE_SIZE: u32 := 4096

  /** errno values; the driver returns them negated. */
  const EPERM: int := 1
  const ENOTTY: int := 25
  const EINVAL: int := 22

  datatype Option<T> = None | Some(value: T)

  /** u32 addition and multiplication, wrapping modulo 2^32 as C does. */
  function AddU32(a: u32, b: u32): (r: u32)
    ensures a + b < U32_MOD ==> r == a + b
    ensures a + b >= U32_MOD ==> r == a + b - U32_MOD
  {
    if a + b < U32_MOD then a + b else a + b - U32_MOD
  }

  function MulU32(a: u32, b: u32): (r: u32)
    ensures a * b < U32_MOD ==> r == a * b
  {
    if a * b < U32_MOD then a * b else (a * b) % U32_MOD
  }
}
