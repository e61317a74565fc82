/**
 * POSIX shared-memory names on Linux (shm_open_linux.go): a name is
 * normalised by dropping its leading slashes, checked, and placed under a
 * fixed directory; `shmOpen` and `shmUnlink` then delegate to `openat` and
 * `unlinkat` relative to the current directory.
 */
module ShmLinux {
  import opened Consts
  import opened Syscalls
  import Text

  /** Directory every shared-memory name is placed under. */
  const PREFIX := "/dev/shmTable/"
  const AT_FDCWD: int := -0x64
  const NAME_MAX: nat := 255
  // Linux amd64 values of the open flags the shims add.
  const O_NOFOLLOW: bv64 := 0x20000
  const O_CLOEXEC: bv64 := 0x80000

  /** `name` without its leading run of '/' characters. */
  function TrimLeadingSlashes(name: string): (r: string)
    ensures |r| <= |name| && r == name[|name| - |r|..]
    ensures r == [] || r[0] != '/'
    ensures forall i :: 0 <= i < |name| - |r| ==> name[i] == '/'
  {
    if name != [] && name[0] == '/' then TrimLeadingSlashes(name[1..]) else name
  }

  /**
   * The checks a stripped name must pass: non-empty, shorter than NAME_MAX
   * in UTF-8 bytes (Go's `len`), no inner '/'.
   */
  predicate AcceptableName(t: string) {
    0 < Text.ByteLen(t) < NAME_MAX && '/' !in t
  }

  /** A name under NAME_MAX characters but not under NAME_MAX bytes is refused: 64 four-byte characters are 256 bytes. */
  lemma NameLimitCountsBytes(name: string)
    requires |name| == 64 && forall i :: 0 <= i < |name| ==> name[i] as int >= 0x1_0000
    ensures |TrimLeadingSlashes(name)| < NAME_MAX && !AcceptableName(TrimLeadingSlashes(name))
  {
    Text.ByteLenAstral(name);
  }

  /** Any run of leading slashes, not just one, is dropped. */
  lemma {:induction false} TrimIgnoresSlashRun(slashes: string, name: string)
    requires forall i :: 0 <= i < |slashes| ==> slashes[i] == '/'
    ensures TrimLeadingSlashes(slashes + name) == TrimLeadingSlashes(name)
    decreases |slashes|
  {
    if slashes == [] {
      assert slashes + name == name;
    } else {
      assert (slashes + name)[0] == '/';
      assert (slashes + name)[1..] == slashes[1..] + name;
      TrimIgnoresSlashRun(slashes[1..], name);
    }
  }

  /** Normalisation is idempotent: one more leading slash makes no difference. */
  lemma TrimOneMoreSlash(name: string)
    ensures TrimLeadingSlashes("/" + name) == TrimLeadingSlashes(name)
  {
    TrimIgnoresSlashRun("/", name);
  }

  /**
   * `shmName`: strips the leading slashes in a loop, refuses an empty,
   * too long or slash-containing remainder with EINVAL, and otherwise
   * returns the remainder under `PREFIX`.
   */
  method ShmName(name: string) returns (path: string, err: Error)
    ensures err == Nil <==> AcceptableName(TrimLeadingSlashes(name))
    ensures err == Nil ==> path == PREFIX + TrimLeadingSlashes(name)
    ensures err != Nil ==> path == "" && err == Sys(EINVAL)
  {
    var n := StripLeadingSlashes(name);
    var nameLen := Text.ByteLen(n);
    if nameLen == 0 || nameLen >= NAME_MAX || '/' in n {
      return "", Sys(EINVAL);
    }
    return PREFIX + n, Nil;
  }

  /** The loop at the head of `shmName` that drops the leading slashes one at a time. */
  method StripLeadingSlashes(name: string) returns (n: string)
    ensures n == TrimLeadingSlashes(name)
  {
    n := name;
    while |n| != 0 && n[0] == '/'
      invariant TrimLeadingSlashes(n) == TrimLeadingSlashes(name)
      decreases |n|
    {
      n := n[1..];
    }
  }

  /**
   * `shmOpen`: a refused name yields fd -1 and the name error without any
   * system call; otherwise one `openat` at the current directory with
   * O_NOFOLLOW and O_CLOEXEC added to the caller's flags, whose answer is
   * returned as it is.
   */
  method ShmOpen(name: string, oflag: bv64, mode: bv32, reply: FdReply)
    returns (fd: int, err: Error, calls: seq<Call>)
    ensures var t := TrimLeadingSlashes(name);
      !AcceptableName(t) ==> fd == -1 && err == Sys(EINVAL) && calls == []
    ensures var t := TrimLeadingSlashes(name);
      AcceptableName(t) ==>
        && calls == [OpenAtCall(AT_FDCWD, PREFIX + t, oflag | O_NOFOLLOW | O_CLOEXEC, mode)]
        && fd == reply.fd && err == reply.err
  {
    fd := -1;
    var path;
    path, err := ShmName(name);
    if err != Nil {
      return fd, err, [];
    }
    var flags := oflag | O_NOFOLLOW | O_CLOEXEC;
    calls := [OpenAtCall(AT_FDCWD, path, flags, mode)];
    fd, err := reply.fd, reply.err;
  }

  /** The flags `shmOpen` passes keep every caller bit and always add the two safety bits. */
  lemma OpenFlagsKeepCallerBits(oflag: bv64)
    ensures (oflag | O_NOFOLLOW | O_CLOEXEC) & oflag == oflag
    ensures (oflag | O_NOFOLLOW | O_CLOEXEC) & O_NOFOLLOW == O_NOFOLLOW
    ensures (oflag | O_NOFOLLOW | O_CLOEXEC) & O_CLOEXEC == O_CLOEXEC
  {
  }

  /**
   * `shmUnlink`: the same name transformation; a refused name is reported
   * before `unlinkat` is called.
   */
  method ShmUnlink(name: string, reply: Error) returns (err: Error, calls: seq<Call>)
    ensures var t := TrimLeadingSlashes(name);
      !AcceptableName(t) ==> err == Sys(EINVAL) && calls == []
    ensures var t := TrimLeadingSlashes(name);
      AcceptableName(t) ==> calls == [UnlinkAtCall(AT_FDCWD, PREFIX + t, 0)] && err == reply
  {
    var path;
    path, err := ShmName(name);
    if err != Nil {
      return err, [];
    }
    calls := [UnlinkAtCall(AT_FDCWD, path, 0)];
    err := reply;
  }
}
