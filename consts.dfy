/**
 * Constants, error values and flag encodings shared by the whole package
 * (const.go).
 *
 * Go `int` flag words are modelled as `bv64`: two's complement bit vectors
 * give `&`, `|` and `&^` on a 64-bit `int` exactly. Errno values are those
 * of Linux on amd64; EINVAL, ENOENT, EFAULT and EEXIST have the same
 * numbers on Darwin, EAGAIN (35 on Darwin) does not.
 */
module Consts {

  /** `syscall.Errno`: the raw number the kernel reports; 0 means success. */
  type Errno = nat

  const EPERM: Errno := 1
  const ENOENT: Errno := 2
  const ESRCH: Errno := 3
  const EINTR: Errno := 4
  const EIO: Errno := 5
  const EBADF: Errno := 9
  const EAGAIN: Errno := 11
  const EACCES: Errno := 13
  const EFAULT: Errno := 14
  const EEXIST: Errno := 17
  const EINVAL: Errno := 22
  const ENOSYS: Errno := 38
  const EWOULDBLOCK: Errno := 11   // the same number as EAGAIN
  const EOPNOTSUPP: Errno := 95
  const ENOTSUP: Errno := 95       // the same number as EOPNOTSUPP on Linux
  const ETOOMANYREFS: Errno := 109
  const ETIMEDOUT: Errno := 110

  /**
   * A Go `error` value as this package produces it: `nil`, a bare
   * `syscall.Errno`, or an `*os.PathError` wrapping another error.
   */
  datatype Error =
    | Nil
    | Sys(errno: Errno)
    | PathError(op: string, path: string, err: Error)

  /** The preallocated error values of const.go:123-127. */
  const ErrEAGAIN: Error := Sys(EAGAIN)
  const ErrEINVAL: Error := Sys(EINVAL)
  const ErrENOENT: Error := Sys(ENOENT)

  /**
   * `errnoErr`: turns the errno a system call left behind into an error.
   * Zero is success; the three common codes come back as the preallocated
   * values; every other code is returned as itself.
   */
  function ErrnoErr(e: Errno): (r: Error)
    ensures r == Nil <==> e == 0
    ensures r != Nil ==> r == Sys(e)
  {
    if e == 0 then Nil
    else if e == EAGAIN then ErrEAGAIN
    else if e == EINVAL then ErrEINVAL
    else if e == ENOENT then ErrENOENT
    else Sys(e)
  }

  /** `errnoErr` never produces a wrapped error and never loses the code. */
  lemma ErrnoErrKeepsCode(e: Errno)
    ensures ErrnoErr(e).Sys? <==> e != 0
    ensures ErrnoErr(e).Sys? ==> ErrnoErr(e).errno == e
  {
  }

  // memfd_create(2) flags (const.go:77-94), as Go `int` bit patterns.
  const MFD_CLOEXEC: bv64 := 0x1
  const MFD_ALLOW_SEALING: bv64 := 0x2
  const MFD_HUGETLB: bv64 := 0x4
  const MFD_HUGE_64KB: bv64 := 0x4000_0000
  const MFD_HUGE_512KB: bv64 := 0x4c00_0000
  const MFD_HUGE_1MB: bv64 := 0x5000_0000
  const MFD_HUGE_2MB: bv64 := 0x5400_0000
  const MFD_HUGE_8MB: bv64 := 0x5c00_0000
  const MFD_HUGE_16MB: bv64 := 0x6000_0000
  const MFD_HUGE_32MB: bv64 := 0x6400_0000
  const MFD_HUGE_256MB: bv64 := 0x7000_0000
  const MFD_HUGE_512MB: bv64 := 0x7400_0000
  const MFD_HUGE_1GB: bv64 := 0x7800_0000
  const MFD_HUGE_2GB: bv64 := 0x7c00_0000
  /** Written `-0x78000000` in Go: the 64-bit two's complement pattern. */
  const MFD_HUGE_16GB: bv64 := 0xffff_ffff_8800_0000
  const MFD_HUGE_MASK: bv64 := 0x3f
  const MFD_HUGE_SHIFT: nat := 26

  // Memory protection (const.go:27-33); the same values on both platforms.
  const PROT_NONE: bv64 := 0x0
  const PROT_READ: bv64 := 0x1
  const PROT_WRITE: bv64 := 0x2
  const PROT_EXEC: bv64 := 0x4
  const PROT_RDWR: bv64 := PROT_READ | PROT_WRITE

  // Descriptor flags (const.go:117-121); the same values on both platforms.
  const F_GETFD: bv64 := 1
  const F_SETFD: bv64 := 2
  const FD_CLOEXEC: bv64 := 1

  // Permission and file-type bits of st_mode (const.go:42-74), as `ModeT`.
  const S_IXOTH: bv32 := 0x1       // 0o0001
  const S_IWOTH: bv32 := 0x2       // 0o0002
  const S_IROTH: bv32 := 0x4       // 0o0004
  const S_IXGRP: bv32 := 0x8       // 0o0010
  const S_IWGRP: bv32 := 0x10      // 0o0020
  const S_IRGRP: bv32 := 0x20      // 0o0040
  const S_IXUSR: bv32 := 0x40      // 0o0100
  const S_IWUSR: bv32 := 0x80      // 0o0200
  const S_IRUSR: bv32 := 0x100     // 0o0400
  const S_ISVTX: bv32 := 0x200     // 0o1000
  const S_ISGID: bv32 := 0x400     // 0o2000
  const S_ISUID: bv32 := 0x800     // 0o4000
  const S_IFMT: bv32 := 0xf000     // 0o170000
  const S_IFIFO: bv32 := 0x1000    // 0o010000
  const S_IFCHR: bv32 := 0x2000    // 0o020000
  const S_IFDIR: bv32 := 0x4000    // 0o040000
  const S_IFBLK: bv32 := 0x6000    // 0o060000
  const S_IFREG: bv32 := 0x8000    // 0o100000
  const S_IFLNK: bv32 := 0xa000    // 0o120000
  const S_IFSOCK: bv32 := 0xc000   // 0o140000

  /** The value of a Go `int` whose bit pattern is `b`. */
  function Int64(b: bv64): (r: int)
    ensures -0x8000_0000_0000_0000 <= r < 0x8000_0000_0000_0000
    ensures r >= 0 ==> r == b as int
    ensures r < 0 ==> r + 0x1_0000_0000_0000_0000 == b as int
  {
    if b as int < 0x8000_0000_0000_0000 then b as int else b as int - 0x1_0000_0000_0000_0000
  }

  /** The flag word read as a 32-bit value, as the kernel's `unsigned int` flags argument sees it. */
  function Low32(b: bv64): bv64 {
    b & 0xffff_ffff
  }

  /** The huge-page size field encoding: log2 of the page size in bytes, shifted into bits 26..31. */
  function HugeEncoding(log2Size: bv64): bv64 {
    log2Size << MFD_HUGE_SHIFT
  }

  /** Every huge-page size constant, paired with log2 of its size in bytes. */
  const HugeSizes: seq<(bv64, bv64)> := [
    (MFD_HUGE_64KB, 16), (MFD_HUGE_512KB, 19), (MFD_HUGE_1MB, 20), (MFD_HUGE_2MB, 21),
    (MFD_HUGE_8MB, 23), (MFD_HUGE_16MB, 24), (MFD_HUGE_32MB, 25), (MFD_HUGE_256MB, 28),
    (MFD_HUGE_512MB, 29), (MFD_HUGE_1GB, 30), (MFD_HUGE_2GB, 31), (MFD_HUGE_16GB, 34)]

  /**
   * Each `MFD_HUGE_<size>` is log2 of its size shifted by `MFD_HUGE_SHIFT`
   * when read as 32 bits, the shifted field fits `MFD_HUGE_MASK`, and
   * nothing outside bits 26..31 is set in those 32 bits.
   */
  lemma HugeSizesAreEncoded(i: nat)
    requires i < |HugeSizes|
    ensures Low32(HugeSizes[i].0) == HugeEncoding(HugeSizes[i].1)
    ensures HugeSizes[i].1 & !MFD_HUGE_MASK == 0
    ensures Low32(HugeSizes[i].0) & 0x3ff_ffff == 0
  {
    match i
    case 0 => case 1 => case 2 => case 3 => case 4 => case 5 =>
    case 6 => case 7 => case 8 => case 9 => case 10 => case _ =>
  }

  /** `MFD_HUGE_16GB` is the negative Go constant, and the only one with bits beyond 32. */
  lemma Huge16GBIsNegative()
    ensures Int64(MFD_HUGE_16GB) == -0x7800_0000
    ensures forall i :: 0 <= i < |HugeSizes| - 1 ==> HugeSizes[i].0 == Low32(HugeSizes[i].0)
  {
  }

  lemma ProtReadWrite()
    ensures PROT_RDWR == 3
    ensures PROT_RDWR & PROT_READ != 0 && PROT_RDWR & PROT_WRITE != 0 && PROT_RDWR & PROT_EXEC == 0
  {
  }
}
