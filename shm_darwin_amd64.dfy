/**
 * The older, single-attempt `ShmAnonymous(name)` of
 * shm_open_darwin_amd64.go. It names the object after the caller's name
 * and the nanosecond field of the clock, makes one exclusive create,
 * unlinks the name and clears close-on-exec. This file redefines the
 * functions of shm_open_darwin.go, so it is a separate variant and not
 * part of the same build.
 *
 * The clock reading is the parameter `nanos`; `shm_open`, `shm_unlink`
 * and `fcntl` are answered by parameters.
 */
module ShmDarwinAmd64 {
  import opened Consts
  import opened Syscalls
  import opened Numerals
  import ShmDarwin

  /** Permissions of the object: owner read and write only (no group read, unlike the retrying variant). */
  const OPEN_MODE: bv32 := S_IRUSR | S_IWUSR

  /** `fmt.Sprintf("%s-%d", name, nanos)`. */
  function UniName(name: string, nanos: nat): (r: string)
    ensures |r| > |name| && r[..|name|] == name && r[|name|] == '-'
  {
    name + "-" + Format(nanos, 10)
  }

  /**
   * The name is recoverable: it is the caller's name, a dash and at most
   * nine decimal digits whose value is the clock reading, written without
   * leading zeros as `%d` prints it.
   */
  lemma UniNameParts(name: string, nanos: nat)
    requires nanos < 1_000_000_000
    ensures var r, d := UniName(name, nanos), |name| + 1;
      && |name| + 2 <= |r| <= |name| + 10
      && AllDigits(r[d..], 10) && Value(r[d..], 10) == nanos
      && (|r| - d > 1 ==> r[d] != '0')
  {
    var r := UniName(name, nanos);
    assert r[|name| + 1..] == Format(nanos, 10);
    ValueOfFormat(nanos, 10);
    assert Pow(10, 9) == 1_000_000_000;
    FormatLength(nanos, 10, 9);
  }

  /** Two clock readings give the same name for the same caller only if they are equal. */
  lemma UniNameInjective(name: string, n1: nat, n2: nat)
    requires UniName(name, n1) == UniName(name, n2)
    ensures n1 == n2
  {
    var d := |name| + 1;
    assert UniName(name, n1)[d..] == Format(n1, 10);
    assert UniName(name, n2)[d..] == Format(n2, 10);
    ValueOfFormat(n1, 10);
    ValueOfFormat(n2, 10);
  }

  /**
   * `ShmAnonymous(name)`: one exclusive `shm_open`, whose failure is
   * returned as it is; a failed unlink is wrapped in a path error naming
   * "ShmUnlink" and the object, with the descriptor returned open; a failed
   * `fcntl` closes the descriptor and returns -1.
   */
  method ShmAnonymous(name: string, nanos: nat, open: FdReply, unlink: Error, getFd: FlagsReply, setFd: Error)
    returns (fd: int, err: Error, calls: seq<Call>)
    requires nanos < 1_000_000_000
    ensures var u, fd0 := UniName(name, nanos), open.fd;
      var created := [ShmOpenCall(u, ShmDarwin.OPEN_FLAGS, OPEN_MODE)];
      if open.err != Nil then
        fd == open.fd && err == open.err && calls == created
      else if unlink != Nil then
        fd == fd0 && err == PathError("ShmUnlink", u, unlink) && calls == created + [ShmUnlinkCall(u)]
      else
        && err == ShmDarwin.CloseOnExecError(getFd, setFd)
        && fd == (if err == Nil then fd0 else -1)
        && calls == created + [ShmUnlinkCall(u)] + ShmDarwin.CloseOnExecCalls(fd0, getFd, setFd)
  {
    var uniName := UniName(name, nanos);
    calls := [ShmOpenCall(uniName, ShmDarwin.OPEN_FLAGS, OPEN_MODE)];
    fd, err := open.fd, open.err;
    if err != Nil {
      return;
    }
    calls := calls + [ShmUnlinkCall(uniName)];
    err := unlink;
    if err != Nil {
      err := PathError("ShmUnlink", uniName, err);
      return;
    }
    var arg: bv64;
    calls := calls + [FcntlCall(fd, F_GETFD, 0)];
    arg, err := getFd.flags, getFd.err;
    if err != Nil {
      calls := calls + [CloseCall(fd)];
      return -1, err, calls;
    }
    arg := ShmDarwin.WithoutCloseOnExec(arg);
    calls := calls + [FcntlCall(fd, F_SETFD, arg)];
    err := setFd;
    if err != Nil {
      calls := calls + [CloseCall(fd)];
      return -1, err, calls;
    }
  }
}
