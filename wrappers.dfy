/** Optional values and the outcome of a call into the operating system. */
module Wrappers {

  /** A value that may be absent: Python's `None`, or a dict key that is not there. */
  datatype Option<+T> = None | Some(value: T)

  /** What a call into psutil or the platform returned: its value, or the
      message of the exception it raised (`str(e)`). */
  datatype Probe<+T> = Raised(message: string) | Returned(value: T)

  /** What `subprocess.run([...], capture_output=True, text=True, timeout=...)`
      yields: a finished process with its exit code and standard output, or one
      of the two exceptions the probes catch. */
  datatype Command =
    | Completed(returnCode: int, stdout: string)
    | TimedOut      // subprocess.TimeoutExpired
    | NotFound      // FileNotFoundError: the tool is not installed
}
