/** Attaching to a process by name: the whole `Process(const char*)`
  constructor (Process.cpp:3-92) as one function from what the operating
  system reports to either an attached target or the reason for giving up.

  The operating system enters as parameters: the `/proc` listing (`None`
  when `opendir` fails), the number read from standard input, whether
  `/proc/<pid>/mem` opens for reading and writing, and the lines of
  `/proc/<pid>/maps` (`None` when it does not open).
 */
module Attachment {
  import opened Results
  import opened Numerals
  import opened Discovery
  import opened MemoryMaps

  /** An attached process: its pid and the base address of its main image. */
  datatype Target = Target(pid: nat, baseAddress: U64)

  /** The constructor: discover, select, open the memory image, find the base address. */
  function Attach(
    requested: string,
    listing: Option<seq<DirEntry>>,
    selection: int,
    memOpens: nat -> bool,
    mapsOf: nat -> Option<seq<string>>
  ): (r: Result<Target, Fatal>)
    ensures listing.None? ==> r == Err(ProcDirUnavailable)
    ensures r.Ok? ==> listing.Some? && r.value.pid in Candidates(requested, listing.value)
    ensures r.Ok? ==> memOpens(r.value.pid)
    ensures r.Ok? ==> r.value.baseAddress != 0
    ensures r.Ok? ==> FindBaseAddress(mapsOf(r.value.pid)) == Ok(r.value.baseAddress)
  {
    match listing
    case None => Err(ProcDirUnavailable)
    case Some(entries) =>
      match Select(Candidates(requested, entries), selection)
      case Err(e) => Err(e)
      case Ok(pid) =>
        if !memOpens(pid) then Err(MemOpenFailed)
        else
          match FindBaseAddress(mapsOf(pid))
          case Err(e) => Err(e)
          case Ok(base) => Ok(Target(pid, base))
  }

  /** A name that matches no process fails before any memory image is opened:
      the outcome does not depend on the memory or mapping files at all. */
  lemma NoMatchFails(
    requested: string, entries: seq<DirEntry>, selection: int,
    memOpens: nat -> bool, mapsOf: nat -> Option<seq<string>>)
    requires Candidates(requested, entries) == []
    ensures Attach(requested, Some(entries), selection, memOpens, mapsOf) == Err(ProcessNotFound)
  {
  }

  /** A name that matches exactly one process attaches to it, whatever the
      user would have typed, once its memory image opens and its mapping
      table has a base address. */
  lemma {:induction false} UniqueMatchAttaches(
    requested: string, entries: seq<DirEntry>, selection: int,
    memOpens: nat -> bool, mapsOf: nat -> Option<seq<string>>, pid: nat, base: U64)
    requires Candidates(requested, entries) == [pid]
    requires memOpens(pid) && FindBaseAddress(mapsOf(pid)) == Ok(base)
    ensures Attach(requested, Some(entries), selection, memOpens, mapsOf) == Ok(Target(pid, base))
  {
  }

  /** Among several matches, choice `k` attaches to the `k`-th candidate, and
      a choice outside 1..n fails whatever the files would say. */
  lemma SeveralMatchesUseSelection(
    requested: string, entries: seq<DirEntry>, selection: int,
    memOpens: nat -> bool, mapsOf: nat -> Option<seq<string>>)
    requires |Candidates(requested, entries)| > 1
    ensures var ids := Candidates(requested, entries);
      !(1 <= selection <= |ids|) ==>
        Attach(requested, Some(entries), selection, memOpens, mapsOf) == Err(InvalidSelection)
    ensures var ids := Candidates(requested, entries);
      1 <= selection <= |ids| && memOpens(ids[selection - 1]) ==>
        Attach(requested, Some(entries), selection, memOpens, mapsOf) ==
          match FindBaseAddress(mapsOf(ids[selection - 1]))
          case Err(e) => Err(e)
          case Ok(base) => Ok(Target(ids[selection - 1], base))
  {
  }

  /** A memory image that does not open stops the attach right after selection. */
  lemma {:induction false} MemOpenFailureIsFatal(
    requested: string, entries: seq<DirEntry>, selection: int,
    memOpens: nat -> bool, mapsOf: nat -> Option<seq<string>>, pid: nat)
    requires Select(Candidates(requested, entries), selection) == Ok(pid)
    requires !memOpens(pid)
    ensures Attach(requested, Some(entries), selection, memOpens, mapsOf) == Err(MemOpenFailed)
  {
  }
}
