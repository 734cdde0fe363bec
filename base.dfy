/** Shared vocabulary of the model: optional values and results, the error
    conditions the core reports, wall-clock time, and the file system seen as
    a value (the core only ever reads it). */
module Base {

  datatype Option<+T> = None | Some(value: T)

  datatype Result<+T, +E> = Ok(value: T) | Err(error: E)

  /** The error conditions of the core: `os.Open` and `os.ReadDir` failures,
      the "empty asset" error of `LastDate` and `errors.ErrUnsupported`. */
  datatype Error =
    | OpenFailed(path: string)
    | ReadDirFailed(dir: string)
    | EmptyAsset
    | Unsupported

  /** A `time.Time`: an instant (seconds since the zero time) that orders
      dates, and the day of the month that `Day()` reports in the value's
      location. Two values for the same instant may report different days. */
  datatype Time = Time(instant: int, day: int) {

    /** `t.Equal(u) || t.After(u)` */
    predicate NotBefore(u: Time) {
      instant >= u.instant
    }

    function Day(): int {
      day
    }
  }

  /** `time.Time{}`: January 1 of year 1, so its `Day()` is 1. */
  const ZeroTime: Time := Time(0, 1)

  const Separator: char := '/'

  /** `filepath.Join` of two non-empty elements, without the lexical
      cleaning `filepath.Clean` would apply. */
  function Join(dir: string, file: string): string {
    dir + [Separator] + file
  }

  /** An open file: its bytes, whether `Stat` succeeds, and the index of the
      first 32-byte record whose read fails with an I/O error, if any. */
  datatype File = File(content: seq<bv8>, statOk: bool, readErrorAt: Option<nat>)

  /** The part of the file system the core reads: directory listings in the
      order `os.ReadDir` returns them, and the files that `os.Open` can open. */
  datatype Disk = Disk(dirs: map<string, seq<string>>, files: map<string, File>)
}
