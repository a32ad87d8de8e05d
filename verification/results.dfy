/** Failure-carrying datatypes shared by the whole model.

  Every `exit(EXIT_FAILURE)` on the attach path of Process.cpp becomes a
  `Fatal` value carried by `Err`, so that the caller decides what to do.
 */
module Results {

  /** A value that may be missing, as a null pointer or a failed call is. */
  datatype Option<+T> = None | Some(value: T)

  /** Either a computed value or the reason the computation gave up. */
  datatype Result<+T, +E> = Ok(value: T) | Err(error: E)

  /** The unrecoverable conditions of attaching to a process, one per
      `exit(EXIT_FAILURE)` of the constructor and of `findBaseAddress`. */
  datatype Fatal =
    | ProcDirUnavailable   // opendir("/proc") failed
    | ProcessNotFound      // no candidate matched the requested name
    | InvalidSelection     // the 1-based choice among several candidates is out of range
    | MemOpenFailed        // fopen("/proc/<pid>/mem", "r+b") failed
    | MapsUnavailable      // fopen("/proc/<pid>/maps", "r") failed
    | BaseAddressNotFound  // no usable executable mapping, or its start is 0
}
