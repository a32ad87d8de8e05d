/** Concrete mapping tables and the base address `findBaseAddress` picks from them. */
module MemoryMapsExamples {
  import opened Results
  import opened Numerals
  import opened CStrings
  import opened MemoryMaps

  // Each line is written as three shorter literals joined by `+`, which keeps
  // the verifier from unfolding one long literal character by character.

  /** The main image of `/usr/bin/foo`, mapped read+execute and private. */
  const FooText: string := "00400000-00401000" + " r-xp 00000000 08:01" + " 1234 /usr/bin/foo"

  /** The kernel's vDSO, also mapped read+execute and private. */
  const VdsoText: string := "7ffd5000-7ffd7000" + " r-xp 00000000 00:00" + " 0 [vdso]"

  /** A read-only mapping whose path happens to contain the text `r-xp`. */
  const DecoyText: string := "00400000-00401000" + " r--p 00000000 08:01" + " 1234 /tmp/r-xp"

  /** A usable mapping that starts at address 0. */
  const ZeroText: string := "0-1000" + " r-xp 0" + " 00:00 0"

  /** A line assembled from three bracket-free pieces names neither synthetic region. */
  lemma Unbracketed(s: string, x: string, y: string, z: string)
    requires s == x + y + z && '[' !in x && '[' !in y && '[' !in z
    ensures !Contains(s, Vdso) && !Contains(s, Vvar)
  {
    assert '[' !in s;
    AbsentFirstChar(s, Vdso);
    AbsentFirstChar(s, Vvar);
  }

  /** A line with the four characters `r-xp` at index `i` contains the token. */
  lemma TokenAt(s: string, i: nat)
    requires i + 4 <= |s| && s[i] == 'r' && s[i + 1] == '-' && s[i + 2] == 'x' && s[i + 3] == 'p'
    ensures Contains(s, ExecPrivate)
  {
    assert s[i..i + 4] == ExecPrivate;
    assert OccursAt(s, ExecPrivate, i);
  }

  lemma Reassociate(a: string, b: string, y: string, z: string)
    ensures (a + ("-" + b)) + y + z == a + ("-" + (b + (y + z)))
  {
  }

  /** Two leading zeros in front of a formatted number leave its value unchanged. */
  lemma TwoZerosValue(n: nat, padded: string)
    requires padded == "00" + Format(n, 16)
    ensures AllDigits(padded, 16) && Value(padded, 16) == n
  {
    var f := Format(n, 16);
    LeadingZeroValue(f, 16);
    LeadingZeroValue("0" + f, 16);
    assert padded == "0" + ("0" + f);
  }

  lemma PaddedStart()
    ensures AllDigits("00400000", 16) && Value("00400000", 16) == 0x400000
  {
    assert Format(0x400000, 16) == "400000";
    TwoZerosValue(0x400000, "00400000");
  }

  lemma PaddedEnd()
    ensures AllDigits("00401000", 16) && Value("00401000", 16) == 0x401000
  {
    assert Format(0x401000, 16) == "401000";
    TwoZerosValue(0x401000, "00401000");
  }

  /** Any line that starts `00400000-00401000 ` has the range 0x400000 to 0x401000. */
  lemma FooRange(y: string, z: string)
    requires |y| > 0 && y[0] == ' '
    ensures ParseRange("00400000-00401000" + y + z) == Some(Range(0x400000, 0x401000))
  {
    PaddedStart();
    PaddedEnd();
    var rest := y + z;
    assert "00400000-00401000" == "00400000" + ("-" + "00401000");
    Reassociate("00400000", "00401000", y, z);
    ParseRangeOfDigits("00400000", "00401000", rest);
  }

  lemma FooTextHasToken()
    ensures Contains(FooText, ExecPrivate)
  {
    TokenAt(FooText, 18);
  }

  lemma FooTextNotSynthetic()
    ensures !Contains(FooText, Vdso) && !Contains(FooText, Vvar)
  {
    Unbracketed(FooText, "00400000-00401000", " r-xp 00000000 08:01", " 1234 /usr/bin/foo");
  }

  lemma FooTextRange()
    ensures ParseRange(FooText) == Some(Range(0x400000, 0x401000))
  {
    FooRange(" r-xp 00000000 08:01", " 1234 /usr/bin/foo");
  }

  /** A single `r-xp` line yields its start address. */
  lemma FooTableYieldsItsStart()
    ensures ScanMaps([FooText]) == Ok(0x400000)
  {
    FooTextHasToken();
    FooTextNotSynthetic();
    FooTextRange();
    FirstQualifyingDecides(FooText, []);
  }

  /** A `[vdso]` line is passed over even when it is the first `r-xp` line. */
  lemma VdsoFirstIsSkipped()
    ensures ScanMaps([VdsoText, FooText]) == Ok(0x400000)
  {
    assert VdsoText[40] == '[' && VdsoText[41] == 'v' && VdsoText[42] == 'd';
    assert VdsoText[43] == 's' && VdsoText[44] == 'o' && VdsoText[45] == ']';
    assert OccursAt(VdsoText, Vdso, 40);
    assert [VdsoText, FooText] == [VdsoText] + [FooText];
    SyntheticRegionSkipped(VdsoText, [FooText]);
    FooTableYieldsItsStart();
  }

  lemma DecoyTextHasToken()
    ensures Contains(DecoyText, ExecPrivate)
  {
    TokenAt(DecoyText, 48);
  }

  lemma DecoyTextNotSynthetic()
    ensures !Contains(DecoyText, Vdso) && !Contains(DecoyText, Vvar)
  {
    Unbracketed(DecoyText, "00400000-00401000", " r--p 00000000 08:01", " 1234 /tmp/r-xp");
  }

  lemma DecoyTextRange()
    ensures ParseRange(DecoyText) == Some(Range(0x400000, 0x401000))
  {
    FooRange(" r--p 00000000 08:01", " 1234 /tmp/r-xp");
  }

  /** The `r-xp` test looks at the whole line, not at the permission field:
      a read-only mapping whose path contains `r-xp` is selected. */
  lemma TokenAnywhereInLineCounts()
    ensures ScanMaps([DecoyText]) == Ok(0x400000)
  {
    DecoyTextHasToken();
    DecoyTextNotSynthetic();
    DecoyTextRange();
    FirstQualifyingDecides(DecoyText, []);
  }

  lemma ZeroTextRange()
    ensures ParseRange(ZeroText) == Some(Range(0, 0x1000))
  {
    var y, z := " r-xp 0", " 00:00 0";
    assert "0-1000" == "0" + ("-" + "1000");
    Reassociate("0", "1000", y, z);
    assert Value("0", 16) == 0;
    assert Format(0x1000, 16) == "1000";
    ParseRangeOfDigits("0", "1000", y + z);
  }

  lemma ZeroTextHasToken()
    ensures Contains(ZeroText, ExecPrivate)
  {
    TokenAt(ZeroText, 7);
  }

  lemma ZeroTextNotSynthetic()
    ensures !Contains(ZeroText, Vdso) && !Contains(ZeroText, Vvar)
  {
    Unbracketed(ZeroText, "0-1000", " r-xp 0", " 00:00 0");
  }

  /** A first usable line starting at 0 ends the scan in failure, even though a later line would do. */
  lemma ZeroStartHidesLaterLines()
    ensures ScanMaps([ZeroText, FooText]) == Err(BaseAddressNotFound)
  {
    ZeroTextRange();
    ZeroTextHasToken();
    ZeroTextNotSynthetic();
    assert [ZeroText, FooText] == [ZeroText] + [FooText];
    FirstQualifyingDecides(ZeroText, [FooText]);
  }
}
