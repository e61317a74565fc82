/**
 * The system-call gateway as the core sees it. Nothing here runs: every
 * call the core makes is recorded as a `Call`, and the answer the
 * operating system gives is supplied to the operation as a reply value, so
 * that a contract can say which calls were made, in which order, and what
 * follows from each possible answer.
 */
module Syscalls {
  import opened Consts

  /** One request to the operating system, with the arguments it was given. */
  datatype Call =
    | MmapCall(addr: nat, length: nat, prot: bv64, flags: bv64, fd: int, offset: int)
    | MunmapCall(addr: nat, length: nat)
    | ShmOpenCall(path: string, oflag: bv64, mode: bv32)
    | ShmUnlinkCall(path: string)
    | OpenAtCall(dirfd: int, path: string, oflag: bv64, mode: bv32)
    | UnlinkAtCall(dirfd: int, path: string, flags: bv64)
    | FcntlCall(fd: int, cmd: bv64, arg: bv64)
    | CloseCall(fd: int)

  /** Answer of a call that yields an address (`mmap`). */
  datatype AddrReply = AddrReply(addr: nat, err: Error)

  /** Answer of a call that yields a descriptor (`shm_open`, `openat`). */
  datatype FdReply = FdReply(fd: int, err: Error)

  /** Answer of a call that yields a flag word (`fcntl`). */
  datatype FlagsReply = FlagsReply(flags: bv64, err: Error)

  /** How many times `c` was issued in `calls`. */
  function Count(calls: seq<Call>, c: Call): (n: nat)
    ensures n <= |calls|
    ensures n == 0 <==> c !in calls
  {
    if calls == [] then 0 else (if calls[0] == c then 1 else 0) + Count(calls[1..], c)
  }

  /** Counts add up over concatenation. */
  lemma {:induction false} CountConcat(a: seq<Call>, b: seq<Call>, c: Call)
    ensures Count(a + b, c) == Count(a, c) + Count(b, c)
    decreases |a|
  {
    if a == [] {
      assert a + b == b;
    } else {
      assert (a + b)[0] == a[0] && (a + b)[1..] == a[1..] + b;
      CountConcat(a[1..], b, c);
    }
  }
}

/**
 * The values Darwin's `syscall` package gives to the open flags and the
 * name limit used by the shared-memory emulation.
 */
module DarwinAbi {
  const O_RDWR: bv64 := 0x2
  const O_NOFOLLOW: bv64 := 0x100
  const O_CREAT: bv64 := 0x200
  const O_EXCL: bv64 := 0x800
  const NAME_MAX: nat := 255
}
