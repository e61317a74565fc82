/**
 * Anonymous shared-memory files on macOS (shm_open_darwin.go). Darwin has
 * no memfd_create(2), so `memfdCreate` and `ShmAnonymous` fake one: pick a
 * fresh name, create it exclusively with `shm_open` (retrying while the
 * name exists), unlink the name and keep the descriptor, and clear
 * close-on-exec when the caller wants the descriptor inherited.
 *
 * `shm_open`, `shm_unlink`, `fcntl` and `close` are answered by a `Script`;
 * the md5 digest that `newName` derives from the clock and the caller's
 * name is supplied with each attempt.
 */
module ShmDarwin {
  import opened Consts
  import opened Syscalls
  import opened DarwinAbi
  import Text

  const MFD_NAME_PREFIX := "memfd:"
  const MFD_NAME_PREFIX_LEN: nat := 10
  const MFD_NAME_MAX_LEN: nat := NAME_MAX - MFD_NAME_PREFIX_LEN
  const MFD_ALL_FLAGS: bv64 := MFD_CLOEXEC | MFD_ALLOW_SEALING | MFD_HUGETLB
  /** `_MFD_HUGE_SHIFT`, from `_HUGETLB_FLAG_ENCODE_SHIFT`. */
  const HUGE_SHIFT: nat := 26
  /** `_MFD_HUGE_MASK`, from `_HUGETLB_FLAG_ENCODE_MASK`: two bits, where `MFD_HUGE_MASK` has six. */
  const HUGE_MASK: bv64 := 0x3
  /** Flags of every exclusive create: read-write, create, fail if it exists, do not follow links. */
  const OPEN_FLAGS: bv64 := O_RDWR | O_CREAT | O_EXCL | O_NOFOLLOW
  /** Permissions of the object: owner read and write, group read. */
  const OPEN_MODE: bv32 := S_IRUSR | S_IWUSR | S_IRGRP

  // ---------------------------------------------------------------- names

  predicate IsHexDigit(c: char) {
    '0' <= c <= '9' || 'a' <= c <= 'f'
  }

  /** What `hex.EncodeToString(md5.Sum(...))` yields: 32 lower-case hex digits. */
  predicate IsDigest(s: string) {
    |s| == 32 && forall i :: 0 <= i < |s| ==> IsHexDigit(s[i])
  }

  /**
   * `newName`: the prefix followed by the digest with its first seven
   * digits dropped, i.e. its last 25.
   */
  function NewName(digest: string): (r: string)
    requires IsDigest(digest)
    ensures |r| == 31 && r[..|MFD_NAME_PREFIX|] == MFD_NAME_PREFIX
    ensures r[|MFD_NAME_PREFIX|..] == digest[32 - 25..]
    ensures forall i :: |MFD_NAME_PREFIX| <= i < |r| ==> IsHexDigit(r[i])
  {
    MFD_NAME_PREFIX + digest[|MFD_NAME_PREFIX| + 1..]
  }

  /** Two candidate names coincide exactly when the last 25 digits of their digests do. */
  lemma NewNameDistinguishes(d1: string, d2: string)
    requires IsDigest(d1) && IsDigest(d2)
    ensures NewName(d1) == NewName(d2) <==> d1[7..] == d2[7..]
  {
    if NewName(d1) == NewName(d2) {
      assert NewName(d1)[6..] == NewName(d2)[6..];
    }
  }

  // ---------------------------------------------------------------- flags

  /**
   * Bits `memfdCreate` accepts: the three flags, plus the page-size field
   * when MFD_HUGETLB is set (the two branches of its first test).
   */
  function AllowedFlags(flags: bv64): bv64 {
    if flags & MFD_HUGETLB == 0 then MFD_ALL_FLAGS else MFD_ALL_FLAGS | (HUGE_MASK << HUGE_SHIFT)
  }

  predicate FlagsAccepted(flags: bv64) {
    flags & !AllowedFlags(flags) == 0
  }

  /** Accepted flags use only bits 0..2, and bits 26..27 only together with MFD_HUGETLB. */
  lemma AcceptedFlagBits(flags: bv64)
    requires FlagsAccepted(flags)
    ensures flags & !0x0c00_0007 == 0
    ensures flags & MFD_HUGETLB == 0 ==> flags & !MFD_ALL_FLAGS == 0
  {
  }

  /**
   * With MFD_HUGETLB, exactly the page-size fields 0..3 pass, so every
   * public `MFD_HUGE_<size>` encoding is refused.
   */
  lemma HugeSizesRefused(i: nat, field: bv64)
    requires i < |HugeSizes| && field <= MFD_HUGE_MASK
    ensures !FlagsAccepted(MFD_HUGETLB | HugeSizes[i].0)
    ensures FlagsAccepted(MFD_HUGETLB | (field << HUGE_SHIFT)) <==> field <= HUGE_MASK
  {
  }

  /**
   * The flag and name checks, in the order `memfdCreate` makes them. The
   * name is measured as Go's `len` measures it, in UTF-8 bytes.
   */
  function CheckArgs(name: string, flags: bv64): (err: Error)
    ensures err == Nil <==> FlagsAccepted(flags) && name != [] && Text.ByteLen(name) <= MFD_NAME_MAX_LEN
    ensures !FlagsAccepted(flags) ==> err == Sys(EINVAL)
    ensures FlagsAccepted(flags) && name == [] ==> err == Sys(EFAULT)
    ensures FlagsAccepted(flags) && Text.ByteLen(name) > MFD_NAME_MAX_LEN ==> err == Sys(EINVAL)
  {
    var nameLen := Text.ByteLen(name);
    if flags & !AllowedFlags(flags) != 0 then Sys(EINVAL)
    else if nameLen <= 0 then Sys(EFAULT)
    else if nameLen > MFD_NAME_MAX_LEN then Sys(EINVAL)
    else Nil
  }

  /** A name short in characters but long in bytes is refused: 62 four-byte characters are 248 bytes. */
  lemma NameLimitCountsBytes(name: string)
    requires |name| == 62 && forall i :: 0 <= i < |name| ==> name[i] as int >= 0x1_0000
    ensures |name| <= MFD_NAME_MAX_LEN && CheckArgs(name, 0) == Sys(EINVAL)
  {
    Text.ByteLenAstral(name);
  }

  // ----------------------------------------------------- the create loop

  /** One pass of the create loop: the digest for the candidate name and `shm_open`'s answer. */
  datatype Attempt = Attempt(digest: string, reply: FdReply)

  /** The loop goes round again exactly when the name already exists. */
  predicate Retries(a: Attempt) {
    a.reply.err == Sys(EEXIST)
  }

  predicate WellFormed(attempts: seq<Attempt>) {
    forall i :: 0 <= i < |attempts| ==> IsDigest(attempts[i].digest)
  }

  /** The operating system eventually answers something other than EEXIST (else the loop never ends). */
  predicate Settles(attempts: seq<Attempt>) {
    exists i :: 0 <= i < |attempts| && !Retries(attempts[i])
  }

  /** The index of the attempt that ends the loop. */
  function FirstSettled(attempts: seq<Attempt>): (k: nat)
    requires Settles(attempts)
    ensures k < |attempts| && !Retries(attempts[k])
    ensures forall j :: 0 <= j < k ==> Retries(attempts[j])
  {
    if !Retries(attempts[0]) then 0
    else
      assert Settles(attempts[1..]) by {
        var i :| 0 <= i < |attempts| && !Retries(attempts[i]);
        assert attempts[1..][i - 1] == attempts[i];
      }
      1 + FirstSettled(attempts[1..])
  }

  /** The `shm_open` requests made for the given attempts, in order. */
  function OpenCalls(attempts: seq<Attempt>): (calls: seq<Call>)
    requires WellFormed(attempts)
  {
    seq(|attempts|, i requires 0 <= i < |attempts| => ShmOpenCall(NewName(attempts[i].digest), OPEN_FLAGS, OPEN_MODE))
  }

  /**
   * The answers the operating system gives in one run: one per create
   * attempt, then to `fcntl(F_GETFD)`, `fcntl(F_SETFD)` and `shm_unlink`.
   */
  datatype Script = Script(attempts: seq<Attempt>, getFd: FlagsReply, setFd: Error, unlink: Error) {
    predicate Valid() {
      WellFormed(attempts) && Settles(attempts)
    }

    /** The attempt that ends the create loop. */
    function Final(): Attempt
      requires Valid()
    {
      attempts[FirstSettled(attempts)]
    }

    /** The name of the object the loop ends on. */
    function Unique(): string
      requires Valid()
    {
      NewName(Final().digest)
    }

    /** Every `shm_open` request of the loop. */
    function Opens(): seq<Call>
      requires Valid()
    {
      OpenCalls(attempts[..FirstSettled(attempts) + 1])
    }
  }

  /**
   * The create loop shared by `memfdCreate` and `ShmAnonymous`: a new
   * candidate name for every EEXIST, any other failure returned with fd -1,
   * success returned with the descriptor and the name it was created under.
   */
  method CreateExclusive(os: Script) returns (fd: int, unique: string, err: Error, calls: seq<Call>)
    requires os.Valid()
    ensures calls == os.Opens() && unique == os.Unique()
    ensures err == os.Final().reply.err && fd == (if err == Nil then os.Final().reply.fd else -1)
  {
    var attempts := os.attempts;
    var i := 0;
    unique := NewName(attempts[0].digest);
    calls := [];
    while true
      invariant 0 <= i <= FirstSettled(attempts)
      invariant unique == NewName(attempts[i].digest)
      invariant calls == OpenCalls(attempts[..i])
      decreases FirstSettled(attempts) - i
    {
      var reply := attempts[i].reply;
      calls := calls + [ShmOpenCall(unique, OPEN_FLAGS, OPEN_MODE)];
      assert calls == OpenCalls(attempts[..i + 1]);
      if reply.err != Nil {
        if reply.err != Sys(EEXIST) {
          return -1, unique, reply.err, calls;
        }
        i := i + 1;
        unique := NewName(attempts[i].digest);
      } else {
        fd, err := reply.fd, Nil;
        return;
      }
    }
  }

  // ------------------------------------------------------ close-on-exec

  /** `arg &^ FD_CLOEXEC`: close-on-exec cleared, every other bit kept. */
  function WithoutCloseOnExec(arg: bv64): (r: bv64)
    ensures r & FD_CLOEXEC == 0
    ensures r | FD_CLOEXEC == arg | FD_CLOEXEC
  {
    arg & !FD_CLOEXEC
  }

  /** The error `remCloseOnExec` reports: the first failing `fcntl`'s. */
  function CloseOnExecError(getFd: FlagsReply, setFd: Error): Error {
    if getFd.err != Nil then getFd.err else setFd
  }

  /** The calls `remCloseOnExec` makes: read the flags, write them back cleared, close on failure. */
  function CloseOnExecCalls(fd: int, getFd: FlagsReply, setFd: Error): seq<Call> {
    if getFd.err != Nil then [FcntlCall(fd, F_GETFD, 0), CloseCall(fd)]
    else
      [FcntlCall(fd, F_GETFD, 0), FcntlCall(fd, F_SETFD, WithoutCloseOnExec(getFd.flags))]
      + (if setFd != Nil then [CloseCall(fd)] else [])
  }

  /**
   * `remCloseOnExec` closes the descriptor exactly when it fails, and on
   * success it has written back the flags it read with only FD_CLOEXEC
   * cleared.
   */
  lemma CloseOnExecOutcome(fd: int, getFd: FlagsReply, setFd: Error)
    ensures var calls := CloseOnExecCalls(fd, getFd, setFd);
      && (CloseOnExecError(getFd, setFd) != Nil ==> Count(calls, CloseCall(fd)) == 1 && calls[|calls| - 1] == CloseCall(fd))
      && (CloseOnExecError(getFd, setFd) == Nil ==>
            && Count(calls, CloseCall(fd)) == 0
            && calls == [FcntlCall(fd, F_GETFD, 0), FcntlCall(fd, F_SETFD, WithoutCloseOnExec(getFd.flags))])
  {
  }

  /** `remCloseOnExec`: `fcntl(F_GETFD)`, clear FD_CLOEXEC, `fcntl(F_SETFD)`; either failure closes `fd`. */
  method RemCloseOnExec(fd: int, getFd: FlagsReply, setFd: Error) returns (err: Error, calls: seq<Call>)
    ensures err == CloseOnExecError(getFd, setFd)
    ensures calls == CloseOnExecCalls(fd, getFd, setFd)
  {
    var arg: bv64;
    calls := [FcntlCall(fd, F_GETFD, 0)];
    arg, err := getFd.flags, getFd.err;
    if err != Nil {
      calls := calls + [CloseCall(fd)];
      return;
    }
    arg := WithoutCloseOnExec(arg);
    calls := calls + [FcntlCall(fd, F_SETFD, arg)];
    err := setFd;
    if err != Nil {
      calls := calls + [CloseCall(fd)];
      return;
    }
  }

  // ------------------------------------------------------- memfdCreate

  /** No request of the create loop is a `close`. */
  lemma OpensCloseNothing(os: Script, fd: int)
    requires os.Valid()
    ensures Count(os.Opens(), CloseCall(fd)) == 0
  {
    assert CloseCall(fd) !in os.Opens();
  }

  /**
   * The error `memfdCreate` reports once the object exists: clearing
   * close-on-exec (when MFD_CLOEXEC is absent) fails first, else the
   * unlink's answer.
   */
  function MemfdSetupError(clear: bool, getFd: FlagsReply, setFd: Error, unlink: Error): Error {
    if clear && CloseOnExecError(getFd, setFd) != Nil then CloseOnExecError(getFd, setFd) else unlink
  }

  /** The requests of `remCloseOnExec` when `memfdCreate` clears close-on-exec, else none. */
  function ClearCalls(fd: int, clear: bool, getFd: FlagsReply, setFd: Error): seq<Call> {
    if clear then CloseOnExecCalls(fd, getFd, setFd) else []
  }

  /** Clearing close-on-exec closes `fd` once when it fails, and never unlinks. */
  lemma ClearCallsCount(fd: int, u: string, clear: bool, getFd: FlagsReply, setFd: Error)
    ensures Count(ClearCalls(fd, clear, getFd, setFd), CloseCall(fd))
      == (if clear && CloseOnExecError(getFd, setFd) != Nil then 1 else 0)
    ensures Count(ClearCalls(fd, clear, getFd, setFd), ShmUnlinkCall(u)) == 0
  {
    CloseOnExecOutcome(fd, getFd, setFd);
    assert ShmUnlinkCall(u) !in ClearCalls(fd, clear, getFd, setFd);
  }

  /**
   * The requests `memfdCreate` makes once the object exists, as written:
   * clear close-on-exec unless MFD_CLOEXEC, then unlink the name; when
   * the clear fails (the `unlinking` label) or the unlink fails (the
   * `closing` label), close the descriptor after the unlink.
   */
  function MemfdSetupCalls(fd: int, u: string, clear: bool, getFd: FlagsReply, setFd: Error, unlink: Error): seq<Call> {
    var closing := (clear && CloseOnExecError(getFd, setFd) != Nil) || unlink != Nil;
    ClearCalls(fd, clear, getFd, setFd) + (if closing then [ShmUnlinkCall(u), CloseCall(fd)] else [ShmUnlinkCall(u)])
  }

  /** The same requests as evidently intended: a failed clear has already closed `fd`, so only the unlink follows. */
  function MemfdSetupCallsClosingOnce(fd: int, u: string, clear: bool, getFd: FlagsReply, setFd: Error, unlink: Error): seq<Call> {
    var closing := !(clear && CloseOnExecError(getFd, setFd) != Nil) && unlink != Nil;
    ClearCalls(fd, clear, getFd, setFd) + (if closing then [ShmUnlinkCall(u), CloseCall(fd)] else [ShmUnlinkCall(u)])
  }

  /**
   * As written, a failed clear of close-on-exec closes the descriptor
   * twice (once inside `remCloseOnExec`, once at `closing`); a failed
   * unlink closes it once; success closes nothing. The name is always
   * unlinked exactly once.
   */
  lemma MemfdSetupClosesTwice(fd: int, u: string, clear: bool, getFd: FlagsReply, setFd: Error, unlink: Error)
    ensures var calls := MemfdSetupCalls(fd, u, clear, getFd, setFd, unlink);
      && Count(calls, CloseCall(fd))
         == (if clear && CloseOnExecError(getFd, setFd) != Nil then 2
             else if unlink != Nil then 1 else 0)
      && Count(calls, ShmUnlinkCall(u)) == 1
  {
    var closing := (clear && CloseOnExecError(getFd, setFd) != Nil) || unlink != Nil;
    var tail := if closing then [ShmUnlinkCall(u), CloseCall(fd)] else [ShmUnlinkCall(u)];
    ClearCallsCount(fd, u, clear, getFd, setFd);
    CountConcat(ClearCalls(fd, clear, getFd, setFd), tail, CloseCall(fd));
    CountConcat(ClearCalls(fd, clear, getFd, setFd), tail, ShmUnlinkCall(u));
  }

  /**
   * As evidently intended, every failure after the create closes the
   * descriptor exactly once and success closes nothing; the name is
   * always unlinked exactly once.
   */
  lemma MemfdSetupClosesOnce(fd: int, u: string, clear: bool, getFd: FlagsReply, setFd: Error, unlink: Error)
    ensures var calls := MemfdSetupCallsClosingOnce(fd, u, clear, getFd, setFd, unlink);
      && Count(calls, CloseCall(fd)) == (if MemfdSetupError(clear, getFd, setFd, unlink) == Nil then 0 else 1)
      && Count(calls, ShmUnlinkCall(u)) == 1
  {
    var closing := !(clear && CloseOnExecError(getFd, setFd) != Nil) && unlink != Nil;
    var tail := if closing then [ShmUnlinkCall(u), CloseCall(fd)] else [ShmUnlinkCall(u)];
    ClearCallsCount(fd, u, clear, getFd, setFd);
    CountConcat(ClearCalls(fd, clear, getFd, setFd), tail, CloseCall(fd));
    CountConcat(ClearCalls(fd, clear, getFd, setFd), tail, ShmUnlinkCall(u));
  }

  /**
   * The steps of `memfdCreate` after the create loop, as written: unless
   * MFD_CLOEXEC was asked for (`clear`), clear close-on-exec; then unlink
   * the name. When clearing fails, the rollback unlinks the name and
   * closes the descriptor that `remCloseOnExec` has already closed; when
   * the unlink fails, the descriptor is closed.
   */
  method MemfdSetup(fd0: int, unique: string, clear: bool, getFd: FlagsReply, setFd: Error, unlink: Error)
    returns (fd: int, err: Error, setup: seq<Call>)
    ensures err == MemfdSetupError(clear, getFd, setFd, unlink)
    ensures fd == (if err == Nil then fd0 else -1)
    ensures setup == MemfdSetupCalls(fd0, unique, clear, getFd, setFd, unlink)
  {
    var pre: seq<Call> := [];
    if clear {
      err, pre := RemCloseOnExec(fd0, getFd, setFd);
      if err != Nil {
        // unlinking: then closing:
        return -1, err, pre + [ShmUnlinkCall(unique), CloseCall(fd0)];
      }
    }
    err := unlink;
    if err != Nil {
      // closing:
      return -1, err, pre + [ShmUnlinkCall(unique), CloseCall(fd0)];
    }
    fd, setup := fd0, pre + [ShmUnlinkCall(unique)];
  }

  /**
   * `memfdCreate`, as written: argument checks, the create loop, then the
   * steps of `MemfdSetup`. A failed clear of close-on-exec closes the
   * descriptor twice.
   */
  method MemfdCreate(name: string, flags: bv64, os: Script) returns (fd: int, err: Error, calls: seq<Call>)
    requires os.Valid()
    ensures CheckArgs(name, flags) != Nil ==> fd == -1 && err == CheckArgs(name, flags) && calls == []
    ensures CheckArgs(name, flags) == Nil && os.Final().reply.err != Nil ==>
      fd == -1 && err == os.Final().reply.err && calls == os.Opens()
    ensures var fd0, clear := os.Final().reply.fd, flags & MFD_CLOEXEC == 0;
      CheckArgs(name, flags) == Nil && os.Final().reply.err == Nil ==>
        && err == MemfdSetupError(clear, os.getFd, os.setFd, os.unlink)
        && fd == (if err == Nil then fd0 else -1)
        && calls == os.Opens() + MemfdSetupCalls(fd0, os.Unique(), clear, os.getFd, os.setFd, os.unlink)
        && Count(calls, CloseCall(fd0))
           == (if clear && CloseOnExecError(os.getFd, os.setFd) != Nil then 2 else if err != Nil then 1 else 0)
  {
    err := CheckArgs(name, flags);
    if err != Nil {
      return -1, err, [];
    }
    var unique, opens, setup;
    fd, unique, err, opens := CreateExclusive(os);
    if err != Nil {
      return -1, err, opens;
    }
    var clear := flags & MFD_CLOEXEC == 0;
    MemfdSetupClosesTwice(fd, unique, clear, os.getFd, os.setFd, os.unlink);
    SetupCount(os, fd, opens, MemfdSetupCalls(fd, unique, clear, os.getFd, os.setFd, os.unlink));
    fd, err, setup := MemfdSetup(fd, unique, clear, os.getFd, os.setFd, os.unlink);
    calls := opens + setup;
  }

  /** The closes of a whole run are those of the steps after the create loop. */
  lemma SetupCount(os: Script, fd: int, opens: seq<Call>, setup: seq<Call>)
    requires os.Valid() && opens == os.Opens()
    ensures Count(opens + setup, CloseCall(fd)) == Count(setup, CloseCall(fd))
  {
    OpensCloseNothing(os, fd);
    CountConcat(opens, setup, CloseCall(fd));
  }

  /**
   * The steps of `memfdCreate` after the create loop as evidently
   * intended: a failed `remCloseOnExec` (which has closed the descriptor
   * itself) is followed only by the unlink.
   */
  method MemfdSetupClosingOnce(fd0: int, unique: string, clear: bool, getFd: FlagsReply, setFd: Error, unlink: Error)
    returns (fd: int, err: Error, setup: seq<Call>)
    ensures err == MemfdSetupError(clear, getFd, setFd, unlink)
    ensures fd == (if err == Nil then fd0 else -1)
    ensures setup == MemfdSetupCallsClosingOnce(fd0, unique, clear, getFd, setFd, unlink)
  {
    var pre: seq<Call> := [];
    if clear {
      err, pre := RemCloseOnExec(fd0, getFd, setFd);
      if err != Nil {
        // remCloseOnExec has closed fd already: only the name is left to remove.
        return -1, err, pre + [ShmUnlinkCall(unique)];
      }
    }
    err := unlink;
    if err != Nil {
      return -1, err, pre + [ShmUnlinkCall(unique), CloseCall(fd0)];
    }
    fd, setup := fd0, pre + [ShmUnlinkCall(unique)];
  }

  /**
   * `memfdCreate` as evidently intended: every failure after the create
   * closes the descriptor exactly once and success closes nothing.
   */
  method MemfdCreateClosingOnce(name: string, flags: bv64, os: Script) returns (fd: int, err: Error, calls: seq<Call>)
    requires os.Valid()
    ensures CheckArgs(name, flags) != Nil ==> fd == -1 && err == CheckArgs(name, flags) && calls == []
    ensures CheckArgs(name, flags) == Nil && os.Final().reply.err != Nil ==>
      fd == -1 && err == os.Final().reply.err && calls == os.Opens()
    ensures var fd0, clear := os.Final().reply.fd, flags & MFD_CLOEXEC == 0;
      CheckArgs(name, flags) == Nil && os.Final().reply.err == Nil ==>
        && err == MemfdSetupError(clear, os.getFd, os.setFd, os.unlink)
        && fd == (if err == Nil then fd0 else -1)
        && calls == os.Opens() + MemfdSetupCallsClosingOnce(fd0, os.Unique(), clear, os.getFd, os.setFd, os.unlink)
        && Count(calls, CloseCall(fd0)) == (if err == Nil then 0 else 1)
  {
    err := CheckArgs(name, flags);
    if err != Nil {
      return -1, err, [];
    }
    var unique, opens, setup;
    fd, unique, err, opens := CreateExclusive(os);
    if err != Nil {
      return -1, err, opens;
    }
    var clear := flags & MFD_CLOEXEC == 0;
    MemfdSetupClosesOnce(fd, unique, clear, os.getFd, os.setFd, os.unlink);
    SetupCount(os, fd, opens, MemfdSetupCallsClosingOnce(fd, unique, clear, os.getFd, os.setFd, os.unlink));
    fd, err, setup := MemfdSetupClosingOnce(fd, unique, clear, os.getFd, os.setFd, os.unlink);
    calls := opens + setup;
  }

  // ------------------------------------------------------ ShmAnonymous

  /** The error `ShmAnonymous()` reports once the object exists: the unlink's, else clearing close-on-exec's. */
  function AnonSetupError(getFd: FlagsReply, setFd: Error, unlink: Error): Error {
    if unlink != Nil then unlink else CloseOnExecError(getFd, setFd)
  }

  /**
   * The requests `ShmAnonymous()` makes once the object exists, as
   * written: unlink, closing on failure; then clear close-on-exec, closing
   * again on failure.
   */
  function AnonSetupCalls(fd: int, u: string, getFd: FlagsReply, setFd: Error, unlink: Error): seq<Call> {
    if unlink != Nil then [ShmUnlinkCall(u), CloseCall(fd)]
    else
      [ShmUnlinkCall(u)] + CloseOnExecCalls(fd, getFd, setFd)
      + (if CloseOnExecError(getFd, setFd) != Nil then [CloseCall(fd)] else [])
  }

  /** The same requests as evidently intended: nothing is closed after a failed clear, which has closed `fd` itself. */
  function AnonSetupCallsClosingOnce(fd: int, u: string, getFd: FlagsReply, setFd: Error, unlink: Error): seq<Call> {
    if unlink != Nil then [ShmUnlinkCall(u), CloseCall(fd)]
    else [ShmUnlinkCall(u)] + CloseOnExecCalls(fd, getFd, setFd)
  }

  /** As written, a failed clear after a good unlink closes the descriptor twice. */
  lemma AnonSetupClosesTwice(fd: int, u: string, getFd: FlagsReply, setFd: Error, unlink: Error)
    ensures Count(AnonSetupCalls(fd, u, getFd, setFd, unlink), CloseCall(fd))
      == (if unlink != Nil then 1 else if CloseOnExecError(getFd, setFd) != Nil then 2 else 0)
  {
    CloseOnExecOutcome(fd, getFd, setFd);
    if unlink == Nil {
      var tail := if CloseOnExecError(getFd, setFd) != Nil then [CloseCall(fd)] else [];
      assert AnonSetupCalls(fd, u, getFd, setFd, unlink) == [ShmUnlinkCall(u)] + (CloseOnExecCalls(fd, getFd, setFd) + tail);
      CountConcat([ShmUnlinkCall(u)], CloseOnExecCalls(fd, getFd, setFd) + tail, CloseCall(fd));
      CountConcat(CloseOnExecCalls(fd, getFd, setFd), tail, CloseCall(fd));
    }
  }

  /** As evidently intended, every failure after the create closes the descriptor exactly once. */
  lemma AnonSetupClosesOnce(fd: int, u: string, getFd: FlagsReply, setFd: Error, unlink: Error)
    ensures Count(AnonSetupCallsClosingOnce(fd, u, getFd, setFd, unlink), CloseCall(fd))
      == (if AnonSetupError(getFd, setFd, unlink) == Nil then 0 else 1)
  {
    CloseOnExecOutcome(fd, getFd, setFd);
    if unlink == Nil {
      CountConcat([ShmUnlinkCall(u)], CloseOnExecCalls(fd, getFd, setFd), CloseCall(fd));
    }
  }

  /**
   * The steps of `ShmAnonymous()` after the create loop, as written:
   * unlink the name, closing the descriptor on failure; then clear
   * close-on-exec, closing the descriptor again after `remCloseOnExec`
   * has closed it.
   */
  method AnonSetup(fd0: int, unique: string, getFd: FlagsReply, setFd: Error, unlink: Error)
    returns (fd: int, err: Error, setup: seq<Call>)
    ensures err == AnonSetupError(getFd, setFd, unlink)
    ensures fd == (if err == Nil then fd0 else -1)
    ensures setup == AnonSetupCalls(fd0, unique, getFd, setFd, unlink)
  {
    fd, setup := fd0, [ShmUnlinkCall(unique)];
    err := unlink;
    if err != Nil {
      setup := setup + [CloseCall(fd)];
      return -1, err, setup;
    }
    var c;
    err, c := RemCloseOnExec(fd, getFd, setFd);
    setup := setup + c;
    if err != Nil {
      setup := setup + [CloseCall(fd)];
      fd := -1;
    }
  }

  /**
   * `ShmAnonymous()`, as written: the create loop, then the steps of
   * `AnonSetup`. A failed `remCloseOnExec` closes the descriptor twice.
   */
  method ShmAnonymous(os: Script) returns (fd: int, err: Error, calls: seq<Call>)
    requires os.Valid()
    ensures os.Final().reply.err != Nil ==> fd == -1 && err == os.Final().reply.err && calls == os.Opens()
    ensures var fd0 := os.Final().reply.fd;
      os.Final().reply.err == Nil ==>
        && err == AnonSetupError(os.getFd, os.setFd, os.unlink)
        && fd == (if err == Nil then fd0 else -1)
        && calls == os.Opens() + AnonSetupCalls(fd0, os.Unique(), os.getFd, os.setFd, os.unlink)
        && Count(calls, CloseCall(fd0))
           == (if os.unlink != Nil then 1 else if err != Nil then 2 else 0)
  {
    var unique, opens, setup;
    fd, unique, err, opens := CreateExclusive(os);
    if err != Nil {
      return -1, err, opens;
    }
    AnonSetupClosesTwice(fd, unique, os.getFd, os.setFd, os.unlink);
    SetupCount(os, fd, opens, AnonSetupCalls(fd, unique, os.getFd, os.setFd, os.unlink));
    fd, err, setup := AnonSetup(fd, unique, os.getFd, os.setFd, os.unlink);
    calls := opens + setup;
  }

  /**
   * The steps of `ShmAnonymous()` after the create loop as evidently
   * intended: nothing more is closed after a failed `remCloseOnExec`,
   * which has closed the descriptor itself.
   */
  method AnonSetupClosingOnce(fd0: int, unique: string, getFd: FlagsReply, setFd: Error, unlink: Error)
    returns (fd: int, err: Error, setup: seq<Call>)
    ensures err == AnonSetupError(getFd, setFd, unlink)
    ensures fd == (if err == Nil then fd0 else -1)
    ensures setup == AnonSetupCallsClosingOnce(fd0, unique, getFd, setFd, unlink)
  {
    fd, setup := fd0, [ShmUnlinkCall(unique)];
    err := unlink;
    if err != Nil {
      setup := setup + [CloseCall(fd)];
      return -1, err, setup;
    }
    var c;
    err, c := RemCloseOnExec(fd, getFd, setFd);
    setup := setup + c;
    if err != Nil {
      fd := -1;
    }
  }

  /**
   * `ShmAnonymous()` as evidently intended: every failure after the
   * create closes the descriptor exactly once.
   */
  method ShmAnonymousClosingOnce(os: Script) returns (fd: int, err: Error, calls: seq<Call>)
    requires os.Valid()
    ensures os.Final().reply.err != Nil ==> fd == -1 && err == os.Final().reply.err && calls == os.Opens()
    ensures var fd0 := os.Final().reply.fd;
      os.Final().reply.err == Nil ==>
        && err == AnonSetupError(os.getFd, os.setFd, os.unlink)
        && fd == (if err == Nil then fd0 else -1)
        && calls == os.Opens() + AnonSetupCallsClosingOnce(fd0, os.Unique(), os.getFd, os.setFd, os.unlink)
        && Count(calls, CloseCall(fd0)) == (if err == Nil then 0 else 1)
  {
    var unique, opens, setup;
    fd, unique, err, opens := CreateExclusive(os);
    if err != Nil {
      return -1, err, opens;
    }
    AnonSetupClosesOnce(fd, unique, os.getFd, os.setFd, os.unlink);
    SetupCount(os, fd, opens, AnonSetupCallsClosingOnce(fd, unique, os.getFd, os.setFd, os.unlink));
    fd, err, setup := AnonSetupClosingOnce(fd, unique, os.getFd, os.setFd, os.unlink);
    calls := opens + setup;
  }
}
