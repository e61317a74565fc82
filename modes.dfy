/**
 * File-mode and device-number helpers (utils.go): the file-type tests of
 * `<sys/stat.h>` on the S_IFMT field, the split of a device number into
 * major and minor parts, and the `ls`-style permission string.
 *
 * `ModeT` and `DevT` are modelled as 32- and 64-bit words.
 */
module Modes {
  import opened Consts
  import opened Numerals
  import opened ModeBits

  type DevT = bv64

  /** `FilePermStr` flag asking for the set-user-ID, set-group-ID and sticky bits. */
  const FP_SPECIAL: bv64 := 1

  /** For a single-bit mask, `valid` reads that one bit. */
  lemma ValidReadsBit(m: ModeT, i: nat)
    requires i < 32
    ensures Valid(m, 1 << i) <==> (m >> i) & 1 == 1
  {
  }

  // ------------------------------------------------------------- file type

  predicate S_ISBLK(m: ModeT) { m & S_IFMT == S_IFBLK }
  predicate S_ISCHR(m: ModeT) { m & S_IFMT == S_IFCHR }
  predicate S_ISDIR(m: ModeT) { m & S_IFMT == S_IFDIR }
  predicate S_ISFIFO(m: ModeT) { m & S_IFMT == S_IFIFO }
  predicate S_ISREG(m: ModeT) { m & S_IFMT == S_IFREG }
  predicate S_ISLNK(m: ModeT) { m & S_IFMT == S_IFLNK }
  predicate S_ISSOCK(m: ModeT) { m & S_IFMT == S_IFSOCK }

  /** The seven file types the tests distinguish. */
  datatype FileType = Block | Char | Directory | Fifo | Regular | Symlink | Socket

  /** The test for `t`. */
  predicate Is(t: FileType, m: ModeT) {
    match t
    case Block => S_ISBLK(m)
    case Char => S_ISCHR(m)
    case Directory => S_ISDIR(m)
    case Fifo => S_ISFIFO(m)
    case Regular => S_ISREG(m)
    case Symlink => S_ISLNK(m)
    case Socket => S_ISSOCK(m)
  }

  /** The type code each test compares the S_IFMT field with. */
  function TypeCode(t: FileType): (c: ModeT)
    ensures c & S_IFMT == c && c != 0
  {
    match t
    case Block => S_IFBLK
    case Char => S_IFCHR
    case Directory => S_IFDIR
    case Fifo => S_IFIFO
    case Regular => S_IFREG
    case Symlink => S_IFLNK
    case Socket => S_IFSOCK
  }

  /** Each test holds exactly when the type field is its code, so at most one holds for any mode. */
  lemma TypesExclusive(m: ModeT, t1: FileType, t2: FileType)
    ensures Is(t1, m) <==> m & S_IFMT == TypeCode(t1)
    ensures Is(t1, m) && Is(t2, m) ==> t1 == t2
  {
  }

  /** Only the type field matters: permission and special bits never change a test's answer. */
  lemma TypeIgnoresPermissions(m: ModeT, bits: ModeT, t: FileType)
    requires bits & S_IFMT == 0
    ensures Is(t, m | bits) <==> Is(t, m)
  {
    assert (m | bits) & S_IFMT == m & S_IFMT;
  }

  // --------------------------------------------------------- device number

  /** `DevT.major`: bits 24..31. */
  function Major(x: DevT): (r: DevT)
    ensures r < 0x100
  {
    (x >> 24) & 0xff
  }

  /** `DevT.minor`: bits 0..23. */
  function Minor(x: DevT): (r: DevT)
    ensures r < 0x100_0000
  {
    x & 0xff_ffff
  }

  /** A 32-bit device number is its major part above its minor part. */
  lemma MajorMinorRecompose(x: DevT)
    requires x < 0x1_0000_0000
    ensures (Major(x) << 24) | Minor(x) == x
  {
  }

  /** Major and minor parts placed in a device number are read back unchanged. */
  lemma MajorMinorOfMakedev(major: DevT, minor: DevT)
    requires major < 0x100 && minor < 0x100_0000
    ensures Major((major << 24) | minor) == major && Minor((major << 24) | minor) == minor
  {
  }

  // ------------------------------------------------------ permission string

  /** The three classes of users a mode grants permissions to, in display order. */
  datatype PermClass = Owner | Group | Others

  /** The read bit of a class. */
  function ReadBit(k: PermClass): ModeT {
    match k case Owner => S_IRUSR case Group => S_IRGRP case Others => S_IROTH
  }

  /** The write bit of a class. */
  function WriteBit(k: PermClass): ModeT {
    match k case Owner => S_IWUSR case Group => S_IWGRP case Others => S_IWOTH
  }

  /** The execute bit of a class. */
  function ExecBit(k: PermClass): ModeT {
    match k case Owner => S_IXUSR case Group => S_IXGRP case Others => S_IXOTH
  }

  /** The special bit shown in a class's execute position: set-user-ID, set-group-ID, sticky. */
  function SpecialBit(k: PermClass): ModeT {
    match k case Owner => S_ISUID case Group => S_ISGID case Others => S_ISVTX
  }

  /** `s` is what `%04o` prints for `perm`: octal digits worth `perm`, at least four, no zero padding beyond four. */
  predicate PaddedOctal(s: string, perm: ModeT) {
    && AllDigits(s, 8) && Value(s, 8) == perm as int
    && |s| >= 4 && (|s| > 4 ==> s[0] != '0')
  }

  /** `%04o`: the octal numeral of `perm`, zero-padded to at least four digits. */
  function Octal4(perm: ModeT): (s: string)
    ensures PaddedOctal(s, perm)
  {
    OctalPadding(perm);
    PadLeft(Format(perm as int, 8), 4, '0')
  }

  /** Padding the octal numeral with zeros to four digits keeps its value and adds no zero beyond four. */
  lemma OctalPadding(perm: ModeT)
    ensures PaddedOctal(PadLeft(Format(perm as int, 8), 4, '0'), perm)
  {
    OctalPaddingValue(perm);
    OctalPaddingShape(perm);
  }

  /** The zeros in front do not change the digits' value. */
  lemma OctalPaddingValue(perm: ModeT)
    ensures var s := PadLeft(Format(perm as int, 8), 4, '0');
      AllDigits(s, 8) && Value(s, 8) == perm as int
  {
    var digits := Format(perm as int, 8);
    var s := PadLeft(digits, 4, '0');
    var zeros := s[..|s| - |digits|];
    assert s == zeros + digits;
    ValueOfFormat(perm as int, 8);
    ValueIgnoresLeadingZeros(zeros, digits, 8);
  }

  /** At least four digits, and a numeral longer than four starts with a non-zero digit. */
  lemma OctalPaddingShape(perm: ModeT)
    ensures var s := PadLeft(Format(perm as int, 8), 4, '0');
      |s| >= 4 && (|s| > 4 ==> s[0] != '0')
  {
    var digits := Format(perm as int, 8);
    var s := PadLeft(digits, 4, '0');
    if |s| > 4 {
      assert s == digits;
    }
  }

  /** The read or write character of a class: the letter when the bit is set, '-' otherwise. */
  function Flag(perm: ModeT, bit: ModeT, letter: char): char {
    if Valid(perm, bit) then letter else '-'
  }

  /** Whether the special bit of class `k` is to be shown: FP_SPECIAL is on and the bit is set. */
  predicate ShowsSpecial(perm: ModeT, flags: bv64, k: PermClass) {
    Valid(perm, SpecialBit(k)) && flags & FP_SPECIAL != 0
  }

  /**
   * The execute character of a class as the source writes it: 's' when
   * the special bit is shown, whether or not the execute bit is set;
   * otherwise 'x' or '-'.
   */
  function ExecChar(perm: ModeT, flags: bv64, k: PermClass): char {
    if Valid(perm, ExecBit(k)) then
      if ShowsSpecial(perm, flags, k) then 's' else 'x'
    else
      if ShowsSpecial(perm, flags, k) then 's' else '-'
  }

  /** The three characters `FilePermStr` prints for one class. */
  function ClassStr(perm: ModeT, flags: bv64, k: PermClass): (r: string)
    ensures |r| == 3
  {
    [Flag(perm, ReadBit(k), 'r'), Flag(perm, WriteBit(k), 'w'), ExecChar(perm, flags, k)]
  }

  /** The nine characters `FilePermStr` prints after the octal value. */
  function Symbolic(perm: ModeT, flags: bv64): (r: string)
    ensures |r| == 9
  {
    ClassStr(perm, flags, Owner) + ClassStr(perm, flags, Group) + ClassStr(perm, flags, Others)
  }

  /**
   * `FilePermStr`: "[", the mode in octal padded to four digits, "] ",
   * then three characters for each class.
   */
  function FilePermStr(perm: ModeT, flags: bv64): (r: string)
    ensures |r| >= 16 && r[0] == '[' && r[|r| - 11..|r| - 9] == "] "
    ensures PaddedOctal(r[1..|r| - 11], perm)
    ensures r[|r| - 9..] == ClassStr(perm, flags, Owner) + ClassStr(perm, flags, Group) + ClassStr(perm, flags, Others)
  {
    var octal := Octal4(perm);
    var r := "[" + octal + "] " + Symbolic(perm, flags);
    assert r[1..|r| - 11] == octal;
    r
  }

  /**
   * Each class shows 'r' and 'w' exactly when its read and write bits are
   * set; its execute position shows 's' exactly when the special bit is
   * shown, and otherwise 'x' exactly when the execute bit is set.
   */
  lemma ClassStrBits(perm: ModeT, flags: bv64, k: PermClass)
    ensures var c := ClassStr(perm, flags, k);
      && (c[0] == 'r' <==> Valid(perm, ReadBit(k))) && c[0] in "r-"
      && (c[1] == 'w' <==> Valid(perm, WriteBit(k))) && c[1] in "w-"
      && (c[2] == 's' <==> ShowsSpecial(perm, flags, k))
      && (!ShowsSpecial(perm, flags, k) ==> (c[2] == 'x' <==> Valid(perm, ExecBit(k))) && c[2] in "x-")
  {
    match k
    case Owner =>
    case Group =>
    case Others =>
  }

  /**
   * Once the special bit of a class is shown, the class prints the same
   * characters whether or not its execute bit is set.
   */
  lemma ExecBitHiddenBySpecial(perm: ModeT, flags: bv64, k: PermClass)
    requires ShowsSpecial(perm, flags, k)
    ensures ClassStr(perm | ExecBit(k), flags, k) == ClassStr(perm & !ExecBit(k), flags, k)
    ensures Valid(perm | ExecBit(k), ExecBit(k)) && !Valid(perm & !ExecBit(k), ExecBit(k))
  {
    ExecBitOnly(perm, k);
    SpecialHidesExec(perm | ExecBit(k), perm & !ExecBit(k), flags, k);
  }

  /** Setting or clearing a class's execute bit changes that bit and none of its read, write and special bits. */
  lemma ExecBitOnly(perm: ModeT, k: PermClass)
    ensures Valid(perm | ExecBit(k), ExecBit(k)) && !Valid(perm & !ExecBit(k), ExecBit(k))
    ensures Valid(perm | ExecBit(k), ReadBit(k)) == Valid(perm, ReadBit(k)) == Valid(perm & !ExecBit(k), ReadBit(k))
    ensures Valid(perm | ExecBit(k), WriteBit(k)) == Valid(perm, WriteBit(k)) == Valid(perm & !ExecBit(k), WriteBit(k))
    ensures Valid(perm | ExecBit(k), SpecialBit(k)) == Valid(perm, SpecialBit(k)) == Valid(perm & !ExecBit(k), SpecialBit(k))
  {
    ExecBitDistinct(k);
    MaskOnly(perm, ExecBit(k), ReadBit(k), WriteBit(k), SpecialBit(k));
  }

  /** Two modes that agree on a class's read and write bits and both show its special bit print that class alike. */
  lemma SpecialHidesExec(a: ModeT, b: ModeT, flags: bv64, k: PermClass)
    requires Valid(a, ReadBit(k)) == Valid(b, ReadBit(k)) && Valid(a, WriteBit(k)) == Valid(b, WriteBit(k))
    requires ShowsSpecial(a, flags, k) && ShowsSpecial(b, flags, k)
    ensures ClassStr(a, flags, k) == ClassStr(b, flags, k)
  {
    assert Flag(a, ReadBit(k), 'r') == Flag(b, ReadBit(k), 'r');
    assert Flag(a, WriteBit(k), 'w') == Flag(b, WriteBit(k), 'w');
    assert ExecChar(a, flags, k) == 's' == ExecChar(b, flags, k);
  }

  /** A class's execute bit is distinct from its read, write and special bits. */
  lemma ExecBitDistinct(k: PermClass)
    ensures ExecBit(k) != 0
    ensures ExecBit(k) & ReadBit(k) == 0 && ExecBit(k) & WriteBit(k) == 0 && ExecBit(k) & SpecialBit(k) == 0
  {
    match k
    case Owner =>
    case Group =>
    case Others =>
  }

  /** Modes 04744 and 04644 print the same nine characters, "rwsr--r--". */
  lemma SetUidExamples()
    ensures Symbolic(0x9e4, FP_SPECIAL) == Symbolic(0x9a4, FP_SPECIAL) == "rwsr--r--"
  {
  }

  /**
   * The execute character as ls(1) prints it: a shown special bit is
   * 's' (or 't' for the sticky bit) when the execute bit is set and 'S'
   * (or 'T') when it is not.
   */
  function ExecCharLs(perm: ModeT, flags: bv64, k: PermClass): char {
    var exec := Valid(perm, ExecBit(k));
    if ShowsSpecial(perm, flags, k) then
      if k == Others then (if exec then 't' else 'T') else (if exec then 's' else 'S')
    else
      if exec then 'x' else '-'
  }

  /** The three ls(1) characters of one class. */
  function ClassLs(perm: ModeT, flags: bv64, k: PermClass): (r: string)
    ensures |r| == 3
  {
    [Flag(perm, ReadBit(k), 'r'), Flag(perm, WriteBit(k), 'w'), ExecCharLs(perm, flags, k)]
  }

  /** The nine permission characters with the case of a special mark following the execute bit. */
  function SymbolicLs(perm: ModeT, flags: bv64): (r: string)
    ensures |r| == 9
  {
    ClassLs(perm, flags, Owner) + ClassLs(perm, flags, Group) + ClassLs(perm, flags, Others)
  }

  /** `FilePermStr` with execute positions as ls(1) shows them. */
  function FilePermStrLs(perm: ModeT, flags: bv64): (r: string)
    ensures |r| >= 16 && r[0] == '[' && r[|r| - 11..|r| - 9] == "] "
    ensures PaddedOctal(r[1..|r| - 11], perm)
    ensures r[|r| - 9..] == ClassLs(perm, flags, Owner) + ClassLs(perm, flags, Group) + ClassLs(perm, flags, Others)
  {
    var octal := Octal4(perm);
    var r := "[" + octal + "] " + SymbolicLs(perm, flags);
    assert r[1..|r| - 11] == octal;
    r
  }

  /** The bit a read or write position stands for: set when it shows its letter. */
  function ReadFlag(c: char, letter: char, bit: ModeT): ModeT {
    if c == letter then bit else 0
  }

  /** The bits an execute position stands for: lower case means executable, any mark means special. */
  function ReadExec(c: char, exec: ModeT, special: ModeT): ModeT {
    (if c == 'x' || c == 's' || c == 't' then exec else 0)
    | (if c == 's' || c == 'S' || c == 't' || c == 'T' then special else 0)
  }

  /** The bits three ls(1) characters of class `k` stand for. */
  function ReadClass(c: string, k: PermClass): ModeT
    requires |c| == 3
  {
    ReadFlag(c[0], 'r', ReadBit(k)) | ReadFlag(c[1], 'w', WriteBit(k)) | ReadExec(c[2], ExecBit(k), SpecialBit(k))
  }

  /** The permission and special bits that nine ls(1) characters stand for. */
  function PermOfLs(s: string): ModeT
    requires |s| == 9
  {
    ReadClass(s[..3], Owner) | ReadClass(s[3..6], Group) | ReadClass(s[6..], Others)
  }

  /** The bits of class `k` that the ls(1) form shows: its permissions, and its special bit under FP_SPECIAL. */
  function ClassMask(k: PermClass, flags: bv64): ModeT {
    (ReadBit(k) | WriteBit(k)) | (ExecBit(k) | if flags & FP_SPECIAL != 0 then SpecialBit(k) else 0)
  }

  /** Masking distributes over union. */
  lemma MaskUnion(m: ModeT, a: ModeT, b: ModeT)
    ensures (m & a) | (m & b) == m & (a | b)
  {
  }

  /** The read character of a class reads back as its read bit. */
  lemma ReadRoundTrip(perm: ModeT, k: PermClass)
    ensures ReadFlag(Flag(perm, ReadBit(k), 'r'), 'r', ReadBit(k)) == perm & ReadBit(k)
  {
    match k
    case Owner =>
    case Group =>
    case Others =>
  }

  /** The write character of a class reads back as its write bit. */
  lemma WriteRoundTrip(perm: ModeT, k: PermClass)
    ensures ReadFlag(Flag(perm, WriteBit(k), 'w'), 'w', WriteBit(k)) == perm & WriteBit(k)
  {
    match k
    case Owner =>
    case Group =>
    case Others =>
  }

  /** The read and write characters of a class read back as its read and write bits. */
  lemma ReadWriteRoundTrip(perm: ModeT, flags: bv64, k: PermClass)
    ensures var c := ClassLs(perm, flags, k);
      ReadFlag(c[0], 'r', ReadBit(k)) | ReadFlag(c[1], 'w', WriteBit(k)) == perm & (ReadBit(k) | WriteBit(k))
  {
    ReadRoundTrip(perm, k);
    WriteRoundTrip(perm, k);
    MaskUnion(perm, ReadBit(k), WriteBit(k));
  }

  /** The execute character of a class reads back as its execute bit and, under FP_SPECIAL, its special bit. */
  lemma ExecRoundTrip(perm: ModeT, flags: bv64, k: PermClass)
    ensures var c := ClassLs(perm, flags, k);
      ReadExec(c[2], ExecBit(k), SpecialBit(k)) == perm & (ExecBit(k) | if flags & FP_SPECIAL != 0 then SpecialBit(k) else 0)
  {
    match k
    case Owner =>
    case Group =>
    case Others =>
  }

  /** One class's three characters read back as that class's bits of the mode. */
  lemma ClassRoundTrip(perm: ModeT, flags: bv64, k: PermClass)
    ensures ReadClass(ClassLs(perm, flags, k), k) == perm & ClassMask(k, flags)
  {
    var sp := if flags & FP_SPECIAL != 0 then SpecialBit(k) else 0;
    ReadWriteRoundTrip(perm, flags, k);
    ExecRoundTrip(perm, flags, k);
    MaskUnion(perm, ReadBit(k) | WriteBit(k), ExecBit(k) | sp);
  }

  /**
   * The ls(1) form loses no bit: the nine characters read back as the
   * nine permission bits, and with FP_SPECIAL also as the three special
   * bits.
   */
  lemma SymbolicLsRoundTrip(perm: ModeT, flags: bv64)
    ensures PermOfLs(SymbolicLs(perm, flags)) == perm & (if flags & FP_SPECIAL != 0 then 0xfff else 0x1ff)
  {
    var s := SymbolicLs(perm, flags);
    assert s[..3] == ClassLs(perm, flags, Owner);
    assert s[3..6] == ClassLs(perm, flags, Group);
    assert s[6..] == ClassLs(perm, flags, Others);
    ClassRoundTrip(perm, flags, Owner);
    ClassRoundTrip(perm, flags, Group);
    ClassRoundTrip(perm, flags, Others);
  }
}
