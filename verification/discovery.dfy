/** Process discovery and selection, the first half of the
  `Process(const char*)` constructor (Process.cpp:17-70).

  The `/proc` listing is a sequence of directory entries in enumeration
  order, each with the target of its `exe` link when `readlink` succeeds.
  The candidates are the pids of the entries whose name starts with a
  digit and whose executable's basename equals the requested name up to
  ASCII case; one candidate is taken as is, and among several the user's
  1-based choice decides.
 */
module Discovery {
  import opened Results
  import opened Numerals
  import opened CStrings
  import opened ExeLink

  /** One entry of the `/proc` directory: its name and, when `readlink` of
      `/proc/<name>/exe` succeeds, the link's full target. */
  datatype DirEntry = DirEntry(name: string, exeLink: Option<string>)

  /** `atoi(entry->d_name)`: the value of the name's leading decimal digits. */
  function Pid(name: string): nat {
    LeadingValue(name, 10)
  }

  /** An entry whose pid is collected (Process.cpp:19-42): a name that starts
      with a digit, a readable `exe` link, and a basename of the link as read
      into the buffer that matches. */
  predicate Matches(requested: string, e: DirEntry) {
    && |e.name| > 0 && IsDigit(e.name[0], 10)
    && e.exeLink.Some?
    && CaseEq(Basename(ReadExeLink(e.exeLink.value)), requested)
  }

  /** The candidate list `processIds` at Process.cpp:43, in enumeration order. */
  function Candidates(requested: string, entries: seq<DirEntry>): (ids: seq<nat>)
    ensures |ids| <= |entries|
    ensures forall id :: id in ids <==>
      exists i :: 0 <= i < |entries| && Matches(requested, entries[i]) && Pid(entries[i].name) == id
  {
    if |entries| == 0 then []
    else
      var e := entries[0];
      var rest := Candidates(requested, entries[1..]);
      assert forall i :: 1 <= i < |entries| ==> entries[1..][i - 1] == entries[i];
      if Matches(requested, e) then [Pid(e.name)] + rest else rest
  }

  /** Candidates of a concatenated listing are the candidates of each part,
      in order: enumeration order is kept. */
  lemma {:induction false} CandidatesAppend(requested: string, a: seq<DirEntry>, b: seq<DirEntry>)
    ensures Candidates(requested, a + b) == Candidates(requested, a) + Candidates(requested, b)
    decreases |a|
  {
    if |a| == 0 {
      assert a + b == b;
    } else {
      assert (a + b)[0] == a[0];
      assert (a + b)[1..] == a[1..] + b;
      CandidatesAppend(requested, a[1..], b);
    }
  }

  /** A single entry contributes its pid exactly when it matches. */
  lemma CandidatesOfOne(requested: string, e: DirEntry)
    ensures Candidates(requested, [e]) == if Matches(requested, e) then [Pid(e.name)] else []
  {
  }

  /** `atoi` reads back a pid written in decimal, and a name made of digits starts with a digit. */
  lemma PidOfFormat(pid: nat)
    ensures |Format(pid, 10)| > 0 && IsDigit(Format(pid, 10)[0], 10)
    ensures Pid(Format(pid, 10)) == pid
  {
    LeadingValueOfFormat(pid, 10, "");
    assert Format(pid, 10) + "" == Format(pid, 10);
  }

  /** The entry of a process running `dir/exe` is a candidate for any name
      equal to `exe` up to case, and contributes its own pid. */
  lemma {:induction false} RunningExeMatches(requested: string, pid: nat, dir: string, exe: string)
    requires '/' !in exe && CaseEq(exe, requested)
    requires |dir + "/" + exe| < BufferSize
    ensures Matches(requested, DirEntry(Format(pid, 10), Some(dir + "/" + exe)))
    ensures Candidates(requested, [DirEntry(Format(pid, 10), Some(dir + "/" + exe))]) == [pid]
  {
    PidOfFormat(pid);
    BasenameOfJoin(dir, exe);
  }

  /** A listing entry is never a candidate when its link cannot be read or its name does not start with a digit. */
  lemma UnmatchedEntries(requested: string, name: string, link: string)
    ensures !Matches(requested, DirEntry(name, None))
    ensures |name| == 0 || !IsDigit(name[0], 10) ==> !Matches(requested, DirEntry(name, Some(link)))
  {
  }

  /** Selection among the candidates (Process.cpp:46-70). `selection` is the
      number read from standard input; it is only consulted when there are
      several candidates. */
  function Select(ids: seq<nat>, selection: int): (r: Result<nat, Fatal>)
    ensures r.Ok? ==> r.value in ids
    ensures |ids| == 0 <==> r == Err(ProcessNotFound)
    ensures |ids| == 1 ==> r == Ok(ids[0])
    ensures |ids| > 1 ==> (r.Ok? <==> 1 <= selection <= |ids|)
    ensures |ids| > 1 && r.Ok? ==> r.value == ids[selection - 1]
    ensures r.Err? ==> r.error == ProcessNotFound || r.error == InvalidSelection
  {
    if |ids| == 0 then Err(ProcessNotFound)
    else if |ids| == 1 then Ok(ids[0])
    else if selection < 1 || selection > |ids| then Err(InvalidSelection)
    else Ok(ids[selection - 1])
  }

  /** With a single candidate the choice read from the user is irrelevant. */
  lemma SingleCandidateIgnoresSelection(ids: seq<nat>, s1: int, s2: int)
    requires |ids| == 1
    ensures Select(ids, s1) == Select(ids, s2) == Ok(ids[0])
  {
  }

  /** Among several candidates, 0 and one past the end are rejected, and every
      choice in between picks that position of the list. */
  lemma SelectionBounds(ids: seq<nat>)
    requires |ids| > 1
    ensures Select(ids, 0) == Err(InvalidSelection)
    ensures Select(ids, |ids| + 1) == Err(InvalidSelection)
    ensures forall k :: 1 <= k <= |ids| ==> Select(ids, k) == Ok(ids[k - 1])
  {
  }
}
