/** Base-address selection from a process's mapping table
  (`Process::findBaseAddress`, Process.cpp:221-276).

  The table is the sequence of lines of `/proc/<pid>/maps`, in file order.
  A line is usable when it contains the token `r-xp`, starts with a
  hexadecimal start address immediately followed by `-` and an end address
  strictly above it, and mentions neither `[vdso]` nor `[vvar]`. The base
  address is the start of the first usable line; a start of 0 counts as no
  base address at all.
 */
module MemoryMaps {
  import opened Results
  import opened Numerals
  import opened CStrings

  /** Permission token of a readable, executable, private mapping. */
  const ExecPrivate: string := "r-xp"

  /** The kernel's synthetic code regions, never taken as the image base. */
  const Vdso: string := "[vdso]"
  const Vvar: string := "[vvar]"

  /** The `start-end` address range at the front of a mapping line. */
  datatype Range = Range(start: U64, end: U64)

  /** Reads the range at the front of a line as Process.cpp:242-251 do:
      `None` when no hex digit starts the line, when the digits are not
      followed by `-`, or when the end does not exceed the start. */
  function ParseRange(line: string): (r: Option<Range>)
    ensures r.Some? ==> r.value.start < r.value.end
    ensures r.Some? ==> 0 < DigitRun(line, 16) < |line| && line[DigitRun(line, 16)] == '-'
    ensures r.Some? ==> r.value.start == StrToULL16(line)
  {
    var k := DigitRun(line, 16);
    if k == 0 || k == |line| || line[k] != '-' then None
    else
      var start := StrToULL16(line);
      var end := StrToULL16(line[k + 1..]);
      if end <= start then None else Some(Range(start, end))
  }

  /** A line that survives every `continue` of the scan loop (Process.cpp:238-262). */
  predicate Qualifies(line: string) {
    && Contains(line, ExecPrivate)
    && ParseRange(line).Some?
    && !Contains(line, Vdso)
    && !Contains(line, Vvar)
  }

  /** Start address of a line whose range parses. */
  function StartOf(line: string): U64
    requires ParseRange(line).Some?
  {
    ParseRange(line).value.start
  }

  /** Line `i` qualifies and no earlier line does. */
  ghost predicate IsFirstQualifying(lines: seq<string>, i: int) {
    && 0 <= i < |lines|
    && Qualifies(lines[i])
    && forall j :: 0 <= j < i ==> !Qualifies(lines[j])
  }

  /** Index of the line at which the scan loop breaks, if it ever does. */
  function FirstQualifying(lines: seq<string>): (r: Option<nat>)
    ensures r.Some? ==> IsFirstQualifying(lines, r.value)
    ensures r.None? <==> forall i :: 0 <= i < |lines| ==> !Qualifies(lines[i])
  {
    if |lines| == 0 then None
    else if Qualifies(lines[0]) then Some(0)
    else
      var r := FirstQualifying(lines[1..]);
      match r
      case None => None
      case Some(i) => Some(i + 1)
  }

  /** The scan of an opened mapping table, Process.cpp:234-275. */
  function ScanMaps(lines: seq<string>): (r: Result<U64, Fatal>)
    ensures r.Ok? ==> r.value != 0
    ensures r.Ok? ==> exists i :: IsFirstQualifying(lines, i) && StartOf(lines[i]) == r.value
    ensures r.Ok? <==> exists i :: IsFirstQualifying(lines, i) && StartOf(lines[i]) != 0
    ensures r.Err? ==> r.error == BaseAddressNotFound
  {
    match FirstQualifying(lines)
    case None => Err(BaseAddressNotFound)
    case Some(i) =>
      FirstIsUnique(lines, i);
      if StartOf(lines[i]) == 0 then Err(BaseAddressNotFound) else Ok(StartOf(lines[i]))
  }

  /** At most one line is the first qualifying one. */
  lemma FirstIsUnique(lines: seq<string>, i: nat)
    requires IsFirstQualifying(lines, i)
    ensures forall j :: IsFirstQualifying(lines, j) ==> j == i
  {
  }

  /** The scan's outcome once the first qualifying line is known. */
  lemma ScanMapsAt(lines: seq<string>, i: nat)
    requires IsFirstQualifying(lines, i)
    ensures ScanMaps(lines) ==
      if StartOf(lines[i]) == 0 then Err(BaseAddressNotFound) else Ok(StartOf(lines[i]))
  {
    FirstIsUnique(lines, i);
  }

  /** A table in which no line qualifies has no base address. */
  lemma NoneQualifies(lines: seq<string>)
    requires forall i :: 0 <= i < |lines| ==> !Qualifies(lines[i])
    ensures ScanMaps(lines) == Err(BaseAddressNotFound)
  {
  }

  /** `findBaseAddress`: `maps` is `None` when the table cannot be opened (Process.cpp:227-232). */
  function FindBaseAddress(maps: Option<seq<string>>): (r: Result<U64, Fatal>)
    ensures maps.None? ==> r == Err(MapsUnavailable)
    ensures maps.Some? ==> r == ScanMaps(maps.value)
    ensures r.Ok? ==> r.value != 0
  {
    match maps
    case None => Err(MapsUnavailable)
    case Some(lines) => ScanMaps(lines)
  }

  /** The scan loop as written in Process.cpp:234-273: `baseAddress` starts
      at 0, the first line that survives every `continue` sets it and
      breaks, and 0 afterwards is a failure. */
  method ScanMapsLoop(lines: seq<string>) returns (r: Result<U64, Fatal>)
    ensures r == ScanMaps(lines)
  {
    var baseAddress: U64 := 0;
    var n := 0;
    while n < |lines|
      invariant 0 <= n <= |lines|
      invariant forall j :: 0 <= j < n ==> !Qualifies(lines[j])
      invariant baseAddress == 0
    {
      var line := lines[n];
      if !Contains(line, ExecPrivate) {
        assert !Qualifies(line);
        n := n + 1;
        continue;
      }
      var k := DigitRun(line, 16);
      if k == 0 || k == |line| || line[k] != '-' {
        assert !Qualifies(line);
        n := n + 1;
        continue;
      }
      var startAddress := StrToULL16(line);
      var endAddress := StrToULL16(line[k + 1..]);
      if endAddress <= startAddress {
        assert !Qualifies(line);
        n := n + 1;
        continue;
      }
      if Contains(line, Vdso) || Contains(line, Vvar) {
        assert !Qualifies(line);
        n := n + 1;
        continue;
      }
      assert ParseRange(line) == Some(Range(startAddress, endAddress));
      ScanMapsAt(lines, n);
      baseAddress := startAddress;
      break;
    }
    if n == |lines| {
      NoneQualifies(lines);
    }
    if baseAddress == 0 {
      r := Err(BaseAddressNotFound);
    } else {
      r := Ok(baseAddress);
    }
  }

  /** A line that fails any filter is passed over: the result is decided by the lines after it. */
  lemma {:induction false} SkipsUnqualified(line: string, rest: seq<string>)
    requires !Qualifies(line)
    ensures ScanMaps([line] + rest) == ScanMaps(rest)
  {
    var lines := [line] + rest;
    assert lines[1..] == rest;
    assert FirstQualifying(lines) == match FirstQualifying(rest)
      case None => None
      case Some(i) => Some(i + 1);
  }

  /** A qualifying line ends the scan: nothing after it is read, and a start of 0 is a failure. */
  lemma FirstQualifyingDecides(line: string, rest: seq<string>)
    requires Qualifies(line)
    ensures ScanMaps([line] + rest) ==
      if StartOf(line) == 0 then Err(BaseAddressNotFound) else Ok(StartOf(line))
  {
  }

  /** A line without the `r-xp` token is never selected. */
  lemma NonExecutableSkipped(line: string, rest: seq<string>)
    requires !Contains(line, ExecPrivate)
    ensures ScanMaps([line] + rest) == ScanMaps(rest)
  {
    SkipsUnqualified(line, rest);
  }

  /** A `[vdso]` or `[vvar]` line is never selected, even when it is the first `r-xp` line. */
  lemma SyntheticRegionSkipped(line: string, rest: seq<string>)
    requires Contains(line, Vdso) || Contains(line, Vvar)
    ensures ScanMaps([line] + rest) == ScanMaps(rest)
  {
    SkipsUnqualified(line, rest);
  }

  /** An empty table has no base address. */
  lemma EmptyTableFails()
    ensures ScanMaps([]) == Err(BaseAddressNotFound)
  {
  }

  /** Where the end address of `a-b…` begins. */
  lemma SplitAtDash(a: string, b: string)
    ensures (a + ("-" + b))[|a|] == '-'
    ensures (a + ("-" + b))[|a| + 1..] == b
  {
  }

  /** A line made of two hex digit strings joined by `-`, followed by a
      non-digit, is read as the range of their (saturated) values exactly
      when the end exceeds the start. The end digits may be missing, which
      reads as 0. */
  lemma {:induction false} ParseRangeOfDigits(a: string, b: string, rest: string)
    requires 0 < |a| && AllDigits(a, 16) && AllDigits(b, 16)
    requires |rest| == 0 || !IsDigit(rest[0], 16)
    ensures var start, end := Saturate(Value(a, 16)), Saturate(Value(b, 16));
      ParseRange(a + ("-" + (b + rest))) ==
        if start < end then Some(Range(start, end)) else None
  {
    var line := a + ("-" + (b + rest));
    SplitAtDash(a, b + rest);
    LeadingValueOfDigits(a, 16, "-" + (b + rest));
    LeadingValueOfDigits(b, 16, rest);
    assert DigitRun(line, 16) == |a|;
    assert StrToULL16(line) == Saturate(Value(a, 16));
    assert StrToULL16(line[|a| + 1..]) == Saturate(Value(b, 16));
  }

  /** A line that starts with a formatted range is read back as that range
      exactly when the end lies above the start. */
  lemma {:induction false} ParseRangeOfFormat(start: U64, end: U64, rest: string)
    requires |rest| == 0 || !IsDigit(rest[0], 16)
    ensures ParseRange(Format(start, 16) + ("-" + (Format(end, 16) + rest))) ==
      if start < end then Some(Range(start, end)) else None
  {
    ParseRangeOfDigits(Format(start, 16), Format(end, 16), rest);
  }
}
