/**
 * Error-number descriptions (helper_unix.go): a read-only table of
 * descriptions searched front to back, and the three lookups built on it.
 *
 * Error numbers are those of Linux on amd64, where EWOULDBLOCK equals
 * EAGAIN and ENOTSUP equals EOPNOTSUPP.
 */
module ErrnoHelp {
  import opened Consts
  import opened Text
  import opened Wrapping

  /** One entry of `errDescription`. */
  datatype Description = Description(num: Errno, name: string, text: string)

  /** Width of the lines `ErrnoHelp` wraps the help text to. */
  const HELP_WIDTH: int := 78

  /** Entries of `errDescription`, in the order of the source table. */
  const ErrDescription: seq<Description> := [
      // helper_unix.go:45
      Description(EPERM, "EPERM", "Operation not permitted."),
      // helper_unix.go:46
      Description(ENOENT, "ENOENT", "No such file or directory."),
      // helper_unix.go:47
      Description(ESRCH, "ESRCH", "No such process."),
      // helper_unix.go:48
      Description(EINTR, "EINTR", "Interrupted system call."),
      // helper_unix.go:50
      Description(EIO, "EIO", "Input/output error."),
      // helper_unix.go:54
      Description(EBADF, "EBADF", "Bad file descriptor."),
      // helper_unix.go:61
      Description(EACCES, "EACCES", "Permission denied."),
      // helper_unix.go:62
      Description(EFAULT, "EFAULT", "Bad address."),
      // helper_unix.go:65
      Description(EEXIST, "EEXIST", "File exists."),
      // helper_unix.go:70
      Description(EINVAL, "EINVAL", "Invalid argument."),
      // helper_unix.go:84-88
      Description(EAGAIN, "EAGAIN", "Resource temporarily unavailable."),
      // helper_unix.go:89-90
      Description(EWOULDBLOCK, "EWOULDBLOCK", "Operation would block."),
      // helper_unix.go:99
      Description(EOPNOTSUPP, "EOPNOTSUPP", "Operation not supported."),
      // helper_unix.go:114
      Description(ETOOMANYREFS, "ETOOMANYREFS", "Too many references: cannot splice."),
      // helper_unix.go:115
      Description(ETIMEDOUT, "ETIMEDOUT", "\U{201C}Connection timed out.\U{201D} "
          + "A socket operation with a specified timeout received no response during the timeout period."),
      // helper_unix.go:127
      Description(ENOSYS, "ENOSYS", "Function not implemented."),
      // helper_unix.go:128-129
      Description(ENOTSUP, "ENOTSUP", "Not supported.")
    ]

  /**
   * The `helper` field of entry `i` of `errDescription`, kept apart from
   * the other fields; the cases follow the order of the table above.
   */
  function Helper(i: nat): string
    requires i < |ErrDescription|
  {
    match i
    case 0 => "Only the owner of the file (or other resource) or processes with special privileges can perform the operation."
    case 1 => "This is a \U{201C}file doesn't exist\U{201D} error for ordinary files that are referenced in contexts where they are expected to already exist."
    case 2 => "No process matches the specified process ID."
    case 3 => ("An asynchronous signal occurred and prevented completion of the call. "
        + "When this happens, you should try the call again.")
    case 4 => "Usually used for physical read or write errors."
    case 5 => "For example, I/O on a descriptor that has been closed or reading from a descriptor open only for writing (or vice versa)."
    case 6 => "The file permissions do not allow the attempted operation."
    case 7 => ("An invalid pointer was detected. "
        + "On GNU/Hurd systems, this error never happens; you get a signal instead.")
    case 8 => "An existing file was specified in a context where it only makes sense to specify a new file."
    case 9 => "This is used to indicate various kinds of problems with passing the wrong argument to a library function."
    case 10 => ("The call might work if you try again later. "
        + "The macro EWOULDBLOCK is another name for EAGAIN; they are always the same in the GNU C Library.This error can happen in a few different situations:\n"
        + "An operation that would block was attempted on an object that has non-blocking mode selected. "
        + "Trying the same operation again will block until some external condition makes it possible to read, write, or connect (whatever the operation). "
        + "You can use select to find out when the operation will be possible; see Waiting for I/O.\n"
        + "Portability Note: In many older Unix systems, this condition was indicated by EWOULDBLOCK, which was a distinct error code different from EAGAIN. "
        + "To make your program portable, you should check for both codes and treat them the same.\n"
        + "A temporary resource shortage made an operation impossible. "
        + "fork can return this error. "
        + "It indicates that the shortage is expected to pass, so your program can try the call again later and it may succeed. "
        + "It is probably a good idea to delay for a few seconds before trying it again, to allow time for other processes to release scarce resources. "
        + "Such shortages are usually fairly serious and affect the whole system, so usually an interactive program should report the error to the user and return to its command loop.")
    case 11 => ("In the GNU C Library, this is another name for EAGAIN (above). "
        + "The values are always the same, on every operating system.C libraries in many older Unix systems have EWOULDBLOCK as a separate error code.")
    case 12 => ("The operation you requested is not supported. "
        + "Some socket functions don' t make sense for all types of sockets, and others may not be implemented for all communications protocols. "
        + "On GNU/Hurd systems, this error can happen for many calls when the object does not support the particular operation; it is a generic indication that the server knows nothing to do for that call.")
    case 13 => ""
    case 14 => ""
    case 15 => ("This indicates that the function called is not implemented at all, either in the C library itself or in the operating system. "
        + "When you get this error, you can be sure that this particular function will always fail with ENOSYS unless you install a new version of the C library or the operating system.")
    case _ => ("A function returns this error when certain parameter values are valid, but the functionality they request is not available. "
        + "This can mean that the function does not implement a particular command or option value or flag bit at all. "
        + "For functions that operate on some object given in a parameter, such as a file descriptor or a port, it might instead mean that only that specific object (file descriptor, port, etc.) is unable to support the other parameters given; different file descriptors might support different ranges of parameter values.If the entire function is not available at all in the implementation, it returns ENOSYS instead.")
  }

  /** `i` is the first entry whose number is `e`. */
  predicate FirstMatch(i: int, e: Errno) {
    && 0 <= i < |ErrDescription| && ErrDescription[i].num == e
    && forall j :: 0 <= j < i ==> ErrDescription[j].num != e
  }

  predicate Known(e: Errno) {
    exists i :: 0 <= i < |ErrDescription| && ErrDescription[i].num == e
  }

  /** `getIndex`: the index of the first entry numbered `e`, or -1 when there is none. */
  method GetIndex(e: Errno) returns (index: int)
    ensures index == -1 <==> !Known(e)
    ensures index != -1 ==> FirstMatch(index, e)
  {
    for i := 0 to |ErrDescription|
      invariant forall j :: 0 <= j < i ==> ErrDescription[j].num != e
    {
      if ErrDescription[i].num == e {
        return i;
      }
    }
    return -1;
  }

  /** `ErrnoName`: the name of the first entry numbered `e`, or "" for an unknown number. */
  method ErrnoName(e: Errno) returns (name: string)
    ensures !Known(e) ==> name == ""
    ensures Known(e) ==> exists i :: FirstMatch(i, e) && name == ErrDescription[i].name
    ensures name == "" <==> !Known(e)
  {
    var index := GetIndex(e);
    if index != -1 {
      EntriesAreNamed(index);
      return ErrDescription[index].name;
    }
    return "";
  }

  /** `ErrnoString`: the message of the first entry numbered `e`, or "" for an unknown number. */
  method ErrnoString(e: Errno) returns (text: string)
    ensures !Known(e) ==> text == ""
    ensures Known(e) ==> exists i :: FirstMatch(i, e) && text == ErrDescription[i].text
    ensures text == "" <==> !Known(e)
  {
    var index := GetIndex(e);
    if index != -1 {
      EntriesAreNamed(index);
      return ErrDescription[index].text;
    }
    return "";
  }

  /**
   * `ErrnoHelp`: the help text of the first entry numbered `e`, wrapped to
   * 78 bytes, or "" for an unknown number (and also for a known number
   * whose help text is empty).
   */
  method ErrnoHelp(e: Errno) returns (help: string)
    ensures !Known(e) ==> help == ""
    ensures Known(e) ==> exists i :: FirstMatch(i, e) && help == Wrapped(Helper(i), HELP_WIDTH)
  {
    var index := GetIndex(e);
    if index != -1 {
      help := Wrap(Helper(index), HELP_WIDTH);
      return;
    }
    return "";
  }

  /** Every entry has a non-empty name and message. */
  lemma EntriesAreNamed(i: int)
    requires 0 <= i < |ErrDescription|
    ensures ErrDescription[i].name != "" && ErrDescription[i].text != ""
  {
  }

  /**
   * Numbers shared by two names report the earlier entry: EWOULDBLOCK
   * finds EAGAIN's entry, ENOTSUP finds EOPNOTSUPP's.
   */
  lemma SharedNumbersReportFirstEntry()
    ensures FirstMatch(10, EWOULDBLOCK) && ErrDescription[10].name == "EAGAIN"
    ensures FirstMatch(12, ENOTSUP) && ErrDescription[12].name == "EOPNOTSUPP"
    ensures ErrDescription[11].name == "EWOULDBLOCK" && !FirstMatch(11, EWOULDBLOCK)
    ensures ErrDescription[16].name == "ENOTSUP" && !FirstMatch(16, ENOTSUP)
  {
  }

  /** A known number whose help text is empty has empty help. */
  lemma EmptyHelperGivesEmptyHelp()
    ensures FirstMatch(13, ETOOMANYREFS) && Wrapped(Helper(13), HELP_WIDTH) == ""
  {
    assert Fields("") == [];
  }
}
