/**
 * The operating-system primitives the core calls, as oracles: the model never
 * looks inside them, it only branches on what they return.
 */
module Os {
  import opened Wrappers

  /** What `os.Stat` reports for a path: it exists (and is or is not a
      directory), it does not exist (`os.IsNotExist(err)`), or some other error. */
  datatype StatResult = Found(isDir: bool) | NotExist | StatFailed(error: Error)

  /** A snapshot of the filesystem as seen through `os.Stat`, `os.Open` followed
      by reading to the end, and `ioutil.ReadFile`. Paths are strings, as the
      source passes them. */
  datatype FileSystem = FileSystem(
    stat: string -> StatResult,
    open: string -> Result<Bytes>,
    readFile: string -> Result<Bytes>)
}
