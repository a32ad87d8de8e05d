# Attaching to a process through `/proc`: a Dafny model

The modelled program attaches to a running Linux process by name, using
only the `/proc` pseudo-filesystem. Its only decision-making logic is
pure string and sequence processing, and this project models that logic:

- **Discovery and selection.** The `Process(const char*)` constructor
  lists `/proc` and keeps every entry whose name starts with a digit, whose `exe` link can be read
  and whose executable basename equals the requested name, ignoring ASCII
  case. Each kept entry contributes the pid `atoi` reads from its name. No
  candidate is fatal. A single candidate is taken as it is. Among several,
  the 1-based number the user types picks one, and a number out of range
  is fatal.
- **Base-address selection.** `findBaseAddress` scans `/proc/<pid>/maps`
  line by line. It takes the start address of the first line that
  contains `r-xp`, starts with a hexadecimal `start-end` range whose end
  is above its start, and mentions neither `[vdso]` nor `[vvar]`. No such
  line, or a start address of 0, is fatal.

Every `exit(EXIT_FAILURE)` on these paths becomes an `Err` carrying a
`Fatal` reason. Everything the operating system supplies enters as a
parameter:

- the directory listing, as a sequence of `DirEntry` values with an
  optional link target;
- the number read from standard input;
- whether the memory image opens;
- the lines of the mapping table.

Modules, one per concern:

| module | file | models |
|---|---|---|
| `Results` | results.dfy | `Option`, `Result` and the `Fatal` reasons |
| `Numerals` | numerals.dfy | the digit runs read by `strtoull(…, 16)` and `atoi`, with `Format` as their inverse |
| `CStrings` | cstrings.dfy | `strstr` (as a containment test), `strrchr` and the basename cut, and `strcasecmp` (as an equality test) |
| `MemoryMaps` | memory_maps.dfy | the line filters and the first-match scan of `findBaseAddress` |
| `MemoryMapsExamples` | memory_maps_examples.dfy | concrete mapping tables and what the scan returns for them |
| `ExeLink` | exe_link.dfy | `readlink` into the fixed link buffer, as written and corrected |
| `Discovery` | discovery.dfy | the candidate list and the selection among candidates |
| `Attachment` | attachment.dfy | the constructor end to end |

## Model

| member | source | states |
|---|---|---|
| `MemoryMaps.ParseRange` | Process.cpp:242-251 | A parsed range starts with at least one hex digit. The digits are immediately followed by `-`. The start is the `strtoull` value of the line's front, and it is strictly below the end. |
| `MemoryMaps.ParseRangeOfDigits` | Process.cpp:242-251 | For `a-b…` with hex digit strings `a` (non-empty) and `b` (possibly empty), followed by a non-digit, the result is the range of their values saturated at 2^64-1 when the end exceeds the start. Otherwise there is no range. A missing end reads as 0. |
| `MemoryMaps.ParseRangeOfFormat` | Process.cpp:242-251 | Round trip: a line that starts `hex(start)-hex(end)` is read back as exactly that range if and only if start < end. |
| `MemoryMaps.Qualifies` | Process.cpp:238-262 | Reference definition, no contract: a line survives every `continue` of the loop when it contains `r-xp`, its range parses with the end above the start, and it contains neither `[vdso]` nor `[vvar]`. |
| `MemoryMaps.FirstQualifying` | Process.cpp:237-266 | The loop breaks at the first line, in file order, that passes every filter, and no earlier line passes. It runs to the end exactly when no line passes. |
| `MemoryMaps.ScanMaps` | Process.cpp:234-275 | Success returns a non-zero start address taken from the first qualifying line. Success happens exactly when such a line exists and its start is non-zero. Every failure is `BaseAddressNotFound`. |
| `MemoryMaps.ScanMapsAt` | Process.cpp:264-273 | Once the first qualifying line is known, the result is its start, or failure if that start is 0. |
| `MemoryMaps.NoneQualifies` | Process.cpp:234-237 | A table in which no line passes the filters, including the empty table, fails. |
| `MemoryMaps.EmptyTableFails` | Process.cpp:234-237 | An empty mapping table has no base address. |
| `MemoryMaps.FindBaseAddress` | Process.cpp:221-276 | A table that cannot be opened fails with `MapsUnavailable`. Otherwise the result is the scan of its lines. Any success is non-zero. |
| `MemoryMaps.ScanMapsLoop` | Process.cpp:234-273 | The loop as written (`baseAddress` starts at 0, each filter is a `continue`, the first survivor sets `baseAddress` and breaks, and 0 is checked after the loop) agrees with the first-match scan on every table. |
| `MemoryMaps.SkipsUnqualified` | Process.cpp:238-262 | A line that fails any filter is transparent: the scan of `[line] + rest` equals the scan of `rest`. |
| `MemoryMaps.FirstQualifyingDecides` | Process.cpp:264-273 | A qualifying line ends the scan. Nothing after it matters, and a start of 0 makes the scan fail. |
| `MemoryMaps.NonExecutableSkipped` | Process.cpp:238-240 | A line without the substring `r-xp` is never selected. |
| `MemoryMaps.SyntheticRegionSkipped` | Process.cpp:258-262 | A line mentioning `[vdso]` or `[vvar]` is never selected, even when it is the first `r-xp` line. |
| `MemoryMapsExamples.FooTableYieldsItsStart` | Process.cpp:243-264 | The single line `00400000-00401000 r-xp 00000000 08:01 1234 /usr/bin/foo` yields 0x400000. |
| `MemoryMapsExamples.VdsoFirstIsSkipped` | Process.cpp:258-264 | A `[vdso]` line with `r-xp` permissions that comes first is skipped, and the next real line's start is returned. |
| `MemoryMapsExamples.TokenAnywhereInLineCounts` | Process.cpp:238-240 | The `r-xp` test looks at the whole line. A read-only `r--p` mapping whose path contains `r-xp` is selected. |
| `MemoryMapsExamples.ZeroStartHidesLaterLines` | Process.cpp:264-273 | If the first qualifying line starts at 0, the scan fails, even though a later line would qualify. |
| `Numerals.DigitRun` | Process.cpp:243-244 | The digit run is the longest prefix made only of digits of the base: all of it is digits, and the next character, if there is one, is not. |
| `Numerals.StrToULL16` | Process.cpp:243 | Reference definition, no contract: `strtoull(…, 16)` on a line that begins with its digits is the value of the leading hex-digit run, saturated by `Numerals.Saturate`. |
| `Numerals.Saturate` | Process.cpp:243-248 | Reference definition, no contract: a value above 2^64-1 becomes 2^64-1, as `strtoull` returns on overflow; smaller values are kept. |
| `Numerals.Format` | Process.cpp:243 | The formatted number is a non-empty string of digits whose value is the number. Round trip: `Value(Format(n)) == n`. |
| `Numerals.LeadingValueOfDigits` | Process.cpp:243-248 | A digit string followed by a non-digit is read in full, and the read stops right after it. |
| `Numerals.LeadingValueOfFormat` | Process.cpp:243-248 | A formatted number followed by a non-digit is read back as that number. |
| `Numerals.LeadingZeroValue` | Process.cpp:243 | Leading zeros, as in `00400000`, do not change the value read. |
| `CStrings.Contains` | Process.cpp:238 | `strstr(s, p) != nullptr` holds if and only if `p` occurs at some index of `s`. |
| `CStrings.AbsentFirstChar` | Process.cpp:259-260 | A pattern whose first character does not appear in the line does not occur in it. |
| `CStrings.LastIndexOf` | Process.cpp:33 | `strrchr` returns an index holding the character with no later occurrence. It returns nothing if and only if the character does not appear. |
| `CStrings.Basename` | Process.cpp:33-38 | The basename is a suffix of the path and contains no `/`. It is the whole path when the path has no `/`, and otherwise it is preceded by a `/`. |
| `CStrings.BasenameOfJoin` | Process.cpp:33-38 | Round trip: the basename of `dir + "/" + name` is `name` when `name` has no `/`. |
| `CStrings.BasenameIdempotent` | Process.cpp:33-38 | Taking the basename twice gives the same result as taking it once. |
| `CStrings.ToLower` | Process.cpp:40 | C-locale `tolower`: `A`-`Z` become `a`-`z`, and every other character is unchanged. |
| `CStrings.CaseEq` | Process.cpp:40 | `strcasecmp(a, b) == 0` holds if and only if the strings have the same length and agree at every index after lower-casing. |
| `CStrings.CaseEqIsLowerEq` | Process.cpp:40 | Case-insensitive equality is the same as equality of the lower-cased strings. |
| `CStrings.CaseEqEquivalence` | Process.cpp:40 | Case-insensitive equality is reflexive, symmetric and transitive. |
| `ExeLink.ReadLink` | Process.cpp:27 | `readlink` stores a prefix of the target of exactly min(length of target, `size`) bytes, so the whole target when it fits. |
| `ExeLink.TerminatorIndexAsWritten` | Process.cpp:26-31 | As written, the terminator index is at most 1024. It equals 1024, one past the buffer, exactly when the target has 1024 bytes or more. |
| `ExeLink.LongTargetOverrunsBuffer` | Process.cpp:26-31 | For every target of 1024 bytes or more, the terminator write falls outside the buffer. |
| `ExeLink.OverrunExample` | Process.cpp:26-31 | A target of 1024 `a`s puts the terminator at index 1024. |
| `ExeLink.ReadExeLink` | Process.cpp:26-31 | Corrected read: the stored prefix is shorter than the buffer, so the terminator fits. The target is read whole if and only if it is shorter than 1024 bytes; a longer target is cut to exactly its first 1023 bytes. |
| `Discovery.Pid` | Process.cpp:41 | Reference definition, no contract: `atoi` of an entry name is the value of its leading decimal digits. |
| `Discovery.Matches` | Process.cpp:19-40 | Reference definition, no contract: an entry is collected when its name starts with a digit, its link can be read, and the basename of the link as read into the buffer equals the requested name up to ASCII case. |
| `Discovery.Candidates` | Process.cpp:17-43 | The list is no longer than the listing. A pid is in it if and only if some entry that starts with a digit, has a readable link and whose link, as read into the buffer, has a matching basename has that pid. |
| `Discovery.CandidatesAppend` | Process.cpp:17-43 | Enumeration order is kept: the candidates of `a + b` are the candidates of `a` followed by those of `b`. |
| `Discovery.CandidatesOfOne` | Process.cpp:19-42 | A single entry contributes its `atoi` pid if it matches, and nothing otherwise. |
| `Discovery.UnmatchedEntries` | Process.cpp:19-30 | An entry whose link cannot be read, or whose name does not start with a digit, is never a candidate. |
| `Discovery.PidOfFormat` | Process.cpp:19-41 | A pid written in decimal starts with a digit, and `atoi` reads it back. |
| `Discovery.RunningExeMatches` | Process.cpp:19-42 | The entry of a process running `dir/exe`, a path shorter than the buffer, is a candidate for any name equal to `exe` up to ASCII case, and it contributes its own pid. |
| `Discovery.Select` | Process.cpp:46-70 | With no candidates, the result is `ProcessNotFound`. With one candidate, that candidate is returned. With several, the result is success if and only if 1 ≤ selection ≤ n, and the pid is then `ids[selection-1]`. Any success is a candidate. |
| `Discovery.SingleCandidateIgnoresSelection` | Process.cpp:51-53 | With one candidate, the number the user would type makes no difference. |
| `Discovery.SelectionBounds` | Process.cpp:64-69 | With several candidates, choices 0 and n+1 fail, and every choice k in 1..n picks `ids[k-1]`. |
| `Attachment.Attach` | Process.cpp:3-92 | A failed `opendir` is fatal. A successful attach chose a candidate, opened its memory image, and found a non-zero base address in its mapping table. |
| `Attachment.NoMatchFails` | Process.cpp:46-49 | A name with no candidates fails with `ProcessNotFound`, whatever the memory and mapping files would say. |
| `Attachment.UniqueMatchAttaches` | Process.cpp:51-91 | A unique match with an openable image and a base address attaches to that pid and base, whatever the selection input. |
| `Attachment.SeveralMatchesUseSelection` | Process.cpp:55-91 | With several matches, an out-of-range choice is fatal. Choice k attaches to the k-th candidate, with that candidate's base address. |
| `Attachment.MemOpenFailureIsFatal` | Process.cpp:79-88 | A memory image that does not open makes the attach fail with `MemOpenFailed`. |

Notes on what the code does, which the model follows:

- The `r-xp` test (Process.cpp:238) searches the whole line, not only
  the permission field, so a line whose path contains `r-xp` also counts.
  `MemoryMapsExamples.TokenAnywhereInLineCounts` shows this.
- The skipped synthetic regions are `[vdso]` and `[vvar]`
  (Process.cpp:259-260). A `[vsyscall]` line is not skipped.
- A first qualifying line that starts at 0 is fatal, and the lines after
  it are not read (Process.cpp:264-273).
- The second `strstr(line, "r-xp")` test (Process.cpp:253-256) can never
  fail once the first one has passed. `Qualifies` therefore states the
  token test once.

## Findings

| source | as written | input that shows it | evidently intended | confidence | as-written member | corrected member |
|---|---|---|---|---|---|---|
| Process.cpp:26-31 | `readlink(exePath, buffer, sizeof(buffer))` can return 1024. `buffer[len] = '\0'` then writes at index 1024 of a 1024-byte array. | an `exe` link whose target is 1024 bytes or longer (Linux allows paths up to 4095 bytes) | pass `sizeof(buffer) - 1`, so that at most 1023 bytes are stored and the terminator fits | high; not executed | `ExeLink.LongTargetOverrunsBuffer` | `ExeLink.ReadExeLink` |

## Left out

- `StrToULL16` (in `ParseRange`) models `strtoull(…, 16)` on lines that
  begin with their digits. The C function also skips leading white
  space, accepts an optional sign and an optional `0x` prefix, and
  negates on `-`; none of these is modelled. Overflow is modelled: the
  value saturates at 2^64-1 and every digit is consumed. The same holds
  for the end address after the `-`.
- `MemoryMaps.ParseRange` and `StrToULL16` assume a 64-bit `uintptr_t`.
  Process.cpp:243 and 248 store the `unsigned long long` result of
  `strtoull` in a `uintptr_t`. On a 32-bit target that store keeps only
  the value mod 2^32, and the `endAddress <= startAddress` test at line
  249 then compares the truncated values. The model does not truncate.
- `Discovery.Matches` compares the basename of the corrected read
  (`ExeLink.ReadExeLink`, at most 1023 bytes), not of the 1024 bytes the
  code as written stores before its out-of-bounds terminator write. The
  two differ only for link targets of 1024 bytes or more, where the code
  as written has no defined behaviour.
- `Discovery.Pid` models `atoi` as the unbounded value of the leading
  decimal digits. Overflow of `int` (and so of `pid_t`) is not modelled.
  Leading white space and sign cannot occur, because the entry name
  starts with a digit.
- Directory enumeration, `readlink`, `fopen` and `fgets` are operating-system
  I/O. Their results are the parameters of `Attachment.Attach`.
- `fgets` splits lines longer than 1023 bytes into several pieces. The model
  takes the table as the sequence of its lines.
- The number read by `std::cin >> selection` enters as an unconstrained
  `int` parameter. A non-numeric token reads as 0, and an overflowing one
  as `INT_MAX` or `INT_MIN`. At end of input `selection`
  (Process.cpp:62, declared without an initialiser) is never assigned and
  holds an indeterminate value. The parameter covers every one of these
  cases.
- Strings are modelled as `seq<char>` with no NUL inside. `strcasecmp`
  folds only ASCII letters, as in the C locale the program runs in.
- The `strncpy` copy of the name into `processName` (Process.cpp:6) is
  never read, so it is not modelled.
- The `geteuid` warning (Process.cpp:73-77) and all diagnostic output are
  left out.
- The liveness probe `checkProcess` (Process.cpp:278-295) is left out,
  including its call at the start of `findBaseAddress`. It is an `fstat`
  of the open handle followed by `exit`.
- `readMemory` and `writeMemory` (Process.cpp:101-149) are left out. They are
  `fseek`/`fread`/`fwrite` calls on `/proc/<pid>/mem`, with no logic beyond
  the operating system's.
- `allocateMemory` and `freeMemory` (Process.cpp:151-173) are left out.
  They are `mmap`/`munmap` in the caller's own address space.
- `createRemoteThread` (Process.cpp:175-219) is left out. It is `fork`
  plus a call through a raw function pointer.
- The destructor's `fclose` (Process.cpp:94-99) is left out.
- Process.h holds only declarations and is not modelled.
