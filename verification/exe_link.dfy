/** Reading the `exe` link of a `/proc` entry into the constructor's
  1024-byte stack buffer (Process.cpp:26-31).

  `readlink` stores at most the buffer size's worth of the target, without
  a terminator, and returns how many bytes it stored; the code then writes
  the terminator at that count. With the full buffer size passed, a target
  of 1024 bytes or more makes that write land one past the buffer. The
  model keeps the code as written, shows the overrun, and uses the
  corrected reading (at most 1023 bytes, so the terminator always fits).
 */
module ExeLink {

  /** `sizeof(buffer)` for the link buffer. */
  const BufferSize: nat := 1024

  /** What `readlink(path, buf, size)` stores for a link to `target`: the
      target cut to `size` bytes. Its length is the returned count. */
  function ReadLink(target: string, size: nat): (s: string)
    ensures |s| == if |target| <= size then |target| else size
    ensures s == target[..|s|]
    ensures |target| <= size ==> s == target
  {
    if |target| <= size then target else target[..size]
  }

  /** The index `buffer[len] = '\0'` writes as Process.cpp:27-31 stand,
      with `sizeof(buffer)` passed to `readlink`. */
  function TerminatorIndexAsWritten(target: string): (i: nat)
    ensures i <= BufferSize
    ensures i == BufferSize <==> |target| >= BufferSize
  {
    |ReadLink(target, BufferSize)|
  }

  /** Any target of 1024 bytes or more puts the terminator one past the
      last byte of the buffer. */
  lemma LongTargetOverrunsBuffer(target: string)
    requires |target| >= BufferSize
    ensures !(TerminatorIndexAsWritten(target) < BufferSize)
  {
  }

  /** A concrete such target: 1024 copies of `a`. */
  lemma OverrunExample()
    ensures TerminatorIndexAsWritten(seq(1024, _ => 'a')) == BufferSize
  {
    LongTargetOverrunsBuffer(seq(1024, _ => 'a'));
  }

  /** The corrected read: `readlink(exePath, buffer, sizeof(buffer) - 1)`,
      leaving room for the terminator. Targets shorter than the buffer are
      read whole; longer ones are cut to their first 1023 bytes. */
  function ReadExeLink(target: string): (s: string)
    ensures |s| < BufferSize && |s| <= |target|
    ensures s == target[..|s|]
    ensures |target| < BufferSize <==> s == target
    ensures |target| >= BufferSize ==> |s| == BufferSize - 1
  {
    ReadLink(target, BufferSize - 1)
  }
}
