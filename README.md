# posix: a verified model of the package core

This project models the core of `posix`, a Go package that wraps POSIX
system calls for Linux and macOS. It covers six pieces:

- **The mapping registry** (`mmap.go`). A process-wide `mmapper` records
  every memory mapping it hands out. The key is the address of the
  mapping's last byte. `Munmap` passes a slice to the kernel only when that
  slice is exactly a live mapping.
- **Anonymous shared-memory files on macOS** (`shm_open_darwin.go`).
  `memfdCreate` and `ShmAnonymous()` emulate Linux `memfd_create(2)` in
  these steps:
  - check the flags and the name;
  - derive a candidate name from a digest;
  - retry an exclusive `shm_open` while the name exists;
  - clear close-on-exec;
  - unlink the name, with `goto`-based rollback on failure.
- **The older single-attempt `ShmAnonymous(name)`**
  (`shm_open_darwin_amd64.go`). It redefines the same functions, so it is
  a separate variant and is not built together with the file above.
- **Linux shared-memory names** (`shm_open_linux.go`). Leading slashes are
  stripped, the rest is checked and placed under `/dev/shmTable/`, and
  `shm_open`/`shm_unlink` become `openat`/`unlinkat`.
- **Error-number descriptions** (`helper_unix.go`). A first-match search
  over a read-only table, and the greedy word wrapper that formats help
  texts.
- **File-mode helpers and encodings** (`utils.go`, `const.go`):
  - the `S_IS*` file-type tests of `<sys/stat.h>`;
  - the major/minor split of a device number;
  - the `ls`-style `FilePermStr`;
  - `errnoErr`;
  - the `MFD_HUGE_*` page-size encodings.

The operating system is an oracle. The answer a call would get (a
descriptor, a flag word, an errno) is a parameter of the operation. Each
operation returns, or records, the list of calls it made, so a contract
can say which calls happen, in which order and how many times.

The `mmapper` is a class whose `active` map and call log its methods update
in place. The loops of the source are methods with loop invariants:
- the create loop;
- the slash-stripping loop;
- `getIndex`;
- the wrap loop.

Each method is proved against a specification function. The properties
are proved about those functions.

Numbers are modelled as follows:
- Go `int` flag words are `bv64`, so `&`, `|` and `&^` are exact. The one
  negative constant, `MFD_HUGE_16GB`, is its 64-bit two's-complement
  pattern.
- `ModeT` is `bv32` and `DevT` is `bv64`.
- Errno values are those of Linux on amd64.
- A Go string is a sequence of characters. Its `len` is the UTF-8 byte
  count (`Text.ByteLen`), which is what `wrap` measures lines with.

## Model

| member | source | states |
|---|---|---|
| Consts.ErrnoErr | const.go:129-141 | the result is nil exactly for errno 0; any other errno comes back as an error carrying that same code, including the three preallocated values |
| Consts.ErrnoErrKeepsCode | const.go:123-141 | `errnoErr` never wraps an error and never changes the code: it is a bare errno exactly when the input is nonzero |
| Consts.Int64 | const.go:81 | reads a 64-bit pattern as a Go `int`: in range, the same value when non-negative, offset by 2^64 when negative |
| Consts.HugeSizesAreEncoded | const.go:81-94 | read as 32 bits, each `MFD_HUGE_<size>` is log2 of the size shifted left by 26; the field fits `MFD_HUGE_MASK`; no lower bit is set |
| Consts.Huge16GBIsNegative | const.go:81 | `MFD_HUGE_16GB` is the Go value -0x78000000, and it is the only size constant with bits above 32 |
| Consts.ProtReadWrite | const.go:27-33 | `PROT_RDWR` is 3: it has the read and write bits and not the execute bit |
| Mmap.UnmapTarget | mmap.go:43-55 | the lookup succeeds only for a whole non-empty slice whose last-byte key is registered with the same base, and it yields that entry |
| Mmap.UnmapTargetIsExact | mmap.go:44-55 | in a consistent registry the lookup succeeds if and only if the slice is exactly a registered mapping |
| Mmap.UnmapRefusesPrefix | mmap.go:44-46 | a shorter prefix of a live mapping keeps its capacity and is refused |
| Mmap.UnmapRefusesSuffix | mmap.go:49-55 | a suffix of a live mapping finds that mapping's entry, whose base differs, and is refused |
| Mmap.RegisterThenRemove | mmap.go:36-61 | registering a slice under its last byte keeps the registry consistent and makes the slice unmappable; removing the entry keeps it consistent and refuses the slice |
| Mmap.Mmapper.constructor | mmap.go:65-69 | the process-wide mapper starts with an empty table and no calls |
| Mmap.Mmapper.Mmap | mmap.go:17-41 | length 0 gives EINVAL, a nil slice and address 0 with no `mmap` call; a failed `mmap` returns its error and leaves the table alone; success returns a slice with len = cap = length at the returned address and adds exactly that entry; the registry invariant is kept |
| Mmap.Mmapper.Munmap | mmap.go:43-63 | a slice that is not exactly a live mapping gets EINVAL with no `munmap` call and no change; otherwise one `munmap` of the whole mapping, whose error is returned; the entry is removed only on success |
| Mmap.MapThenUnmapTwice | mmap.go:17-63 | mapping, unmapping the returned slice and unmapping it again gives nil, nil, then EINVAL; only one `munmap` reaches the kernel |
| ShmDarwin.NewName | shm_open_darwin.go:14-21 | the name is "memfd:" followed by the last 25 hex digits of the digest, 31 characters whatever the caller's name |
| ShmDarwin.NewNameDistinguishes | shm_open_darwin.go:14-21 | two candidate names are equal if and only if the last 25 digits of their digests are |
| ShmDarwin.AcceptedFlagBits | shm_open_darwin.go:26-35 | accepted flags use only bits 0-2 and 26-27; without MFD_HUGETLB only the three memfd flags |
| ShmDarwin.HugeSizesRefused | shm_open_darwin.go:30-35 | with MFD_HUGETLB every public `MFD_HUGE_<size>` encoding is refused, and a page-size field passes if and only if it is at most 3 |
| ShmDarwin.CheckArgs | shm_open_darwin.go:26-44 | in source order: bad flags give EINVAL, then an empty name EFAULT, then a name over NAME_MAX-10 UTF-8 bytes EINVAL; nil exactly when all checks pass |
| ShmDarwin.NameLimitCountsBytes | shm_open_darwin.go:38-44 | the name limit is in bytes, as Go's `len` counts: 62 four-byte characters (248 bytes) are refused with EINVAL although they are under 245 characters |
| ShmDarwin.FirstSettled | shm_open_darwin.go:47-57 | the loop ends on the first answer other than EEXIST, and every earlier answer was EEXIST |
| ShmDarwin.CreateExclusive | shm_open_darwin.go:46-57 | one exclusive `shm_open` per attempt until the first answer other than EEXIST, each under a new name; that answer's error is returned, with its descriptor on success and -1 on failure |
| ShmDarwin.WithoutCloseOnExec | shm_open_darwin.go:141 | FD_CLOEXEC is cleared and every other bit is kept |
| ShmDarwin.CloseOnExecOutcome | shm_open_darwin.go:134-148 | `remCloseOnExec` closes the descriptor once, as its last call, exactly when it fails; on success it makes the two `fcntl` calls, writing back the read flags with only FD_CLOEXEC cleared |
| ShmDarwin.RemCloseOnExec | shm_open_darwin.go:134-148 | returns the first failing `fcntl`'s error and makes the calls described by `CloseOnExecCalls` |
| ShmDarwin.OpensCloseNothing | shm_open_darwin.go:47-57 | the create loop never closes a descriptor |
| ShmDarwin.ClearCallsCount | shm_open_darwin.go:59-64 | clearing close-on-exec closes the descriptor once when it fails and never unlinks |
| ShmDarwin.MemfdSetupClosesTwice | shm_open_darwin.go:59-77 | as written, a failed clear of close-on-exec closes the descriptor twice, a failed unlink once, success never; the name is unlinked exactly once |
| ShmDarwin.MemfdSetupClosesOnce | shm_open_darwin.go:59-77 | in the corrected steps every failure closes the descriptor exactly once and success never; the name is unlinked exactly once |
| ShmDarwin.MemfdSetup | shm_open_darwin.go:59-77 | the steps after the loop as written: error and descriptor (-1 on failure) and the exact calls, including the rollback through both labels |
| ShmDarwin.MemfdSetupClosingOnce | shm_open_darwin.go:59-77 | the corrected steps: same error and descriptor, and after a failed clear only the unlink follows |
| ShmDarwin.SetupCount | shm_open_darwin.go:47-77 | the closes of a whole run are those made after the create loop |
| ShmDarwin.MemfdCreate | shm_open_darwin.go:23-78 | arguments rejected by `CheckArgs` (the name measured in bytes) give (-1, error) with no call; a failed create returns its error with fd -1; otherwise the setup error, the descriptor or -1, the exact call list, and the close count (2 after a failed clear) |
| ShmDarwin.MemfdCreateClosingOnce | shm_open_darwin.go:23-78 | the same run with the corrected rollback: every failure after the create closes the descriptor exactly once |
| ShmDarwin.AnonSetupClosesTwice | shm_open_darwin.go:116-130 | as written, a failed unlink closes once, a failed clear after a good unlink closes twice, success never |
| ShmDarwin.AnonSetupClosesOnce | shm_open_darwin.go:116-130 | in the corrected steps every failure closes the descriptor exactly once |
| ShmDarwin.AnonSetup | shm_open_darwin.go:112-130 | unlink first and then clear close-on-exec; error, descriptor (-1 on failure) and exact calls as written |
| ShmDarwin.AnonSetupClosingOnce | shm_open_darwin.go:112-130 | the same steps without the second close after a failed clear |
| ShmDarwin.ShmAnonymous | shm_open_darwin.go:94-131 | create loop, then unlink, then clear close-on-exec; a failed create gives fd -1 and its error; otherwise error, descriptor, calls and close count (2 after a failed clear) |
| ShmDarwin.ShmAnonymousClosingOnce | shm_open_darwin.go:94-131 | the same run with the corrected rollback: one close per failure |
| ShmDarwinAmd64.UniName | shm_open_darwin_amd64.go:13 | the name starts with the caller's name followed by '-' |
| ShmDarwinAmd64.UniNameParts | shm_open_darwin_amd64.go:13 | after the dash come one to nine decimal digits whose value is the nanosecond reading, with no leading zero unless the reading is 0 (`%d`) |
| ShmDarwinAmd64.UniNameInjective | shm_open_darwin_amd64.go:13 | different nanosecond readings give different names for the same caller |
| ShmDarwinAmd64.ShmAnonymous | shm_open_darwin_amd64.go:11-43 | a single exclusive create whose error is returned as is; a failed unlink is wrapped as a path error naming "ShmUnlink" and the object, with the descriptor left open; a failed `fcntl` closes the descriptor and returns -1; exact calls in each case |
| ShmLinux.TrimLeadingSlashes | shm_open_linux.go:29-31 | the result is a suffix of the name that does not start with '/', and everything removed is '/' |
| ShmLinux.TrimIgnoresSlashRun | shm_open_linux.go:29-31 | any run of leading slashes is removed, not just one |
| ShmLinux.TrimOneMoreSlash | shm_open_linux.go:29-31 | one more leading slash makes no difference |
| ShmLinux.StripLeadingSlashes | shm_open_linux.go:29-31 | the loop's result is the name without its leading run of '/' |
| ShmLinux.ShmName | shm_open_linux.go:27-40 | succeeds if and only if the stripped name is non-empty, shorter than NAME_MAX in UTF-8 bytes and free of '/'; the result is "/dev/shmTable/" plus the stripped name; otherwise EINVAL |
| ShmLinux.NameLimitCountsBytes | shm_open_linux.go:33-37 | the length check counts bytes: 64 four-byte characters (256 bytes) are refused although they are under NAME_MAX characters |
| ShmLinux.ShmOpen | shm_open_linux.go:9-18 | a name refused by `shmName` (byte-length limit included) gives fd -1 and EINVAL with no call; otherwise one `openat` at AT_FDCWD with O_NOFOLLOW and O_CLOEXEC added, whose answer is returned |
| ShmLinux.OpenFlagsKeepCallerBits | shm_open_linux.go:15 | the flags passed keep every caller bit and always contain O_NOFOLLOW and O_CLOEXEC |
| ShmLinux.ShmUnlink | shm_open_linux.go:20-25 | a name refused by `shmName` (byte-length limit included) gives EINVAL with no call; otherwise one `unlinkat` of the prefixed name, whose answer is returned |
| ErrnoHelp.GetIndex | helper_unix.go:166-173 | -1 if and only if no entry has the number; otherwise the smallest index whose entry has it |
| ErrnoHelp.ErrnoName | helper_unix.go:14-21 | the name of the first matching entry, and "" exactly for an unknown number |
| ErrnoHelp.ErrnoString | helper_unix.go:23-29 | the message of the first matching entry, and "" exactly for an unknown number |
| ErrnoHelp.ErrnoHelp | helper_unix.go:31-37 | "" for an unknown number; for a known one, the first matching entry's help text wrapped to 78 bytes |
| ErrnoHelp.EntriesAreNamed | helper_unix.go:39-145 | every table entry has a non-empty name and message |
| ErrnoHelp.SharedNumbersReportFirstEntry | helper_unix.go:39-145 | EWOULDBLOCK finds EAGAIN's entry and ENOTSUP finds EOPNOTSUPP's; their own later entries are never reached |
| ErrnoHelp.EmptyHelperGivesEmptyHelp | helper_unix.go:31-37 | a known number whose help text is empty (ETOOMANYREFS) gets "" |
| Text.Fields | helper_unix.go:148 | every field is a non-empty run of non-space characters |
| Text.FieldsSplit | helper_unix.go:148 | a white-space character splits the fields: the fields of `a + c + b` are those of `a` followed by those of `b` |
| Text.FieldsOfWord | helper_unix.go:148 | a single word is its own only field |
| Text.TrimSpace | helper_unix.go:148 | the result is no longer than the input and neither starts nor ends with white space |
| Text.TrimSpaceIsSlice | helper_unix.go:148 | the result is a slice of the input, and what was cut from each end is white space |
| Text.FieldsOfTrimSpace | helper_unix.go:148 | trimming never changes the fields |
| Text.LinesAppend | helper_unix.go:155-156 | appending a newline and a newline-free piece adds exactly one line |
| Text.ByteLen | helper_unix.go:153 | Go's `len` of a string is between one and four bytes per character |
| Text.ByteLenConcat | helper_unix.go:153-161 | byte lengths add up over concatenation |
| Wrapping.Place | helper_unix.go:155-161 | one step of the layout leaves every line non-empty |
| Wrapping.Greedy | helper_unix.go:152-162 | the layout of the first n words has only non-empty lines |
| Wrapping.GreedyWords | helper_unix.go:152-162 | the layout keeps all the words, in order |
| Wrapping.GreedyLayout | helper_unix.go:152-162 | every line of two or more words fits the width, and no line could have taken the first word of the next |
| Wrapping.PlaceWords | helper_unix.go:155-161 | placing a word appends it to the words of the layout |
| Wrapping.PlaceKeepsLayout | helper_unix.go:155-161 | placing a word keeps the layout fitting and maximal |
| Wrapping.PlaceBreak | helper_unix.go:155-157 | a word that does not fit starts a new line: the text gains "\n" and the word, and the space left restarts from the word |
| Wrapping.PlaceJoin | helper_unix.go:158-160 | a word that fits joins the last line: the text gains " " and the word, and the space left shrinks by its bytes plus one |
| Wrapping.GrowLastLineKeepsLayout | helper_unix.go:158-160 | a word that fits on the last line keeps the layout fitting and maximal |
| Wrapping.NewLineKeepsLayout | helper_unix.go:155-157 | a word that does not fit keeps the layout fitting and maximal when it starts a new line |
| Wrapping.WrapWords | helper_unix.go:152-163 | the loop's output is the rendered greedy layout of the words |
| Wrapping.Wrap | helper_unix.go:147-164 | the output is the input unchanged when it has no word, else the rendered greedy layout of its words |
| Wrapping.JoinedLine | helper_unix.go:159 | a line joined by spaces has its words as fields, no newline, and single separators |
| Wrapping.RenderedText | helper_unix.go:152-161 | the fields of the output are the layout's words, separated by single spaces or newlines |
| Wrapping.RenderedLines | helper_unix.go:155-160 | splitting the output at newlines gives back the lines, each joined by spaces |
| Wrapping.RenderedLayout | helper_unix.go:152-161 | every output line fits the width unless it is one word, and each line but the last could not take the next line's first word |
| Wrapping.WrappedText | helper_unix.go:147-164 | text with no word is returned unchanged; otherwise the output has exactly the input's words in order, single separators, no white space at either end, width-fitting lines and greedy breaks |
| Modes.OctalPadding | utils.go:117 | zero-padding the octal numeral to four digits keeps its value and adds no zero beyond four |
| ModeBits.SetAndCleared | utils.go:7-12 | after setting a non-zero mask `valid` reports it, and after clearing it `valid` does not |
| ModeBits.OtherBitKept | utils.go:7-12 | setting or clearing a mask leaves `valid` unchanged for any disjoint mask |
| ModeBits.MaskOnly | utils.go:7-12 | setting or clearing one mask changes `valid` for that mask and not for three disjoint ones |
| Modes.ValidReadsBit | utils.go:7-12 | for a single-bit mask, `valid` is true exactly when that bit of the mode is set |
| Modes.TypeCode | utils.go:15-33 | each type code lies inside S_IFMT and is nonzero |
| Modes.TypesExclusive | utils.go:15-33 | each test holds if and only if the S_IFMT field equals its code, so at most one test holds |
| Modes.TypeIgnoresPermissions | utils.go:15-33 | bits outside S_IFMT never change a test's answer |
| Modes.Major | utils.go:35-37 | the major number is below 0x100 |
| Modes.Minor | utils.go:38-40 | the minor number is below 0x1000000 |
| Modes.MajorMinorRecompose | utils.go:35-40 | a device number below 2^32 is its major part shifted by 24 or-ed with its minor part |
| Modes.MajorMinorOfMakedev | utils.go:35-40 | a major below 0x100 and a minor below 0x1000000 placed in a device number are read back unchanged |
| Modes.Octal4 | utils.go:117 | `%04o`: octal digits whose value is the mode, at least four, with no zero padding beyond four |
| Modes.FilePermStr | utils.go:42-118 | "[", the `%04o` numeral of `perm` (octal digits worth `perm`, at least four, and no leading zero once there are more than four), "] ", then the three characters of each class |
| Modes.ClassStrBits | utils.go:50-115 | 'r' and 'w' exactly when their bits are set, '-' otherwise; the execute position is 's' exactly when the special bit is shown, and otherwise 'x' exactly when the execute bit is set |
| Modes.ExecBitHiddenBySpecial | utils.go:58-71 | once a class's special bit is shown, setting or clearing its execute bit prints the same characters |
| Modes.SetUidExamples | utils.go:58-71 | modes 04744 and 04644 both print "rwsr--r--" with FP_SPECIAL |
| Modes.FilePermStrLs | utils.go:44-48 | the ls(1) form: same layout, with 's'/'t' when the execute bit is set and 'S'/'T' when it is not |
| Modes.SymbolicLsRoundTrip | utils.go:44-48 | the ls(1) form loses no bit: its nine characters read back as the nine permission bits, and with FP_SPECIAL also the three special bits |

## Findings

| source | as written | input that shows it | evidently intended | confidence | as-written member | corrected member |
|---|---|---|---|---|---|---|
| shm_open_darwin.go:59-77 | when `remCloseOnExec` fails it has already closed the descriptor, and the jump to `unlinking` falls through to `closing`, which closes it again | flags without MFD_CLOEXEC, create succeeds, `fcntl(F_GETFD)` fails: `close(fd)` is issued twice | close the descriptor once on every failure path | not executed | ShmDarwin.MemfdSetupClosesTwice | ShmDarwin.MemfdSetupClosesOnce |
| shm_open_darwin.go:121-130 | `ShmAnonymous()` jumps to `closing` after a failed `remCloseOnExec`, which has already closed the descriptor | create and unlink succeed, `fcntl(F_GETFD)` fails: `close(fd)` is issued twice | close the descriptor once on every failure path | not executed | ShmDarwin.AnonSetupClosesTwice | ShmDarwin.AnonSetupClosesOnce |
| utils.go:58-115 | a shown special bit prints 's' whether or not the execute bit is set, and the sticky bit prints 's' too, so the execute bit is lost | modes 04744 and 04644 with FP_SPECIAL both print "rwsr--r--" | as the comment at utils.go:44-48 describes for ls(1): 's'/'t' with the execute bit, 'S'/'T' without | not executed | Modes.ExecBitHiddenBySpecial | Modes.SymbolicLsRoundTrip |

The second closing of a descriptor is harmful once another thread has
reused its number. The corrected Darwin members (`MemfdCreateClosingOnce`,
`ShmAnonymousClosingOnce`) are proved beside the as-written ones. The
as-written members remain the faithful model of the code.

## Left out

- The retry loop of `memfdCreate` and `ShmAnonymous()` has no bound in the code, and the model adds none.
- ShmDarwin.CreateExclusive: requires that the scripted answers contain one other than EEXIST. The Go loop does not end otherwise, and the model does not represent a run that never ends.
- ShmDarwinAmd64.ShmAnonymous: after a failed unlink the descriptor stays open and is returned. This leak is modelled as written and is not corrected.
- The `sync.Mutex` of `mmapper`. Each operation is modelled as atomic and sequential.
- Building a slice header with `unsafe`, and the mapped bytes. A slice is its base, length and capacity.
- Mmap.Mmapper.Mmap: addresses are unbounded naturals, so a mapping that would wrap around the end of the address space (`uintptr` overflow) is not modelled.
- `md5`, `hex.EncodeToString` and `time.Now`, which are foreign calls. The digest of each attempt is an input of 32 lower-case hex digits, and the nanosecond reading is an input below 10^9.
- The system calls themselves, which go through the platform trampolines: `mmap`, `munmap`, `shm_open`, `shm_unlink`, `openat`, `unlinkat`, `fcntl` and `close`. Their answers are parameters.
- A path containing a NUL byte: Go's conversion to a C string refuses it, and the wrapper returns EINVAL (and descriptor 0 from `openat`) without making the system call. The model always makes the call.
- Go strings that are not valid UTF-8 cannot be represented, because a string here is a sequence of characters. So a name with such bytes cannot be given to `shmName` or `memfdCreate`, and every byte count (`Text.ByteLen`) assumes valid UTF-8.
- `posix.go` is not part of this model. Its public `Mmap`/`Munmap` only forward to the mapper.
- `DisplayStatInfo` (utils.go:120-168), which only prints.
- The error-description table keeps 17 entries with concrete Linux amd64 numbers, not the whole prose table. Darwin's different errno values (for example EAGAIN = 35) are not modelled.
- Wrapping.Wrap: `lineWidth` and byte counts are unbounded integers; Go's 64-bit `int` cannot overflow at any realistic text size.
- The Darwin files `shm_open_darwin.go` and `shm_open_darwin_amd64.go` redefine the same functions and cannot be built together. They are two separate modules.
