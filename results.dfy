/** The failures a path query can report. */
module Results {

  datatype PathError =
    /** `GetSegmentLength` found no drawable segment with this number. */
    | SegmentNotExist(segment: int)
    /** `GetPoint(segment, ...)` was asked about a path without points. */
    | EmptyPath
    /** A list access with an index outside the list (`ArgumentOutOfRangeException`). */
    | IndexOutOfRange(index: int)

  datatype Result<T> = Ok(value: T) | Err(error: PathError)

  /** The outcome of a mutation that can only fail before changing anything. */
  datatype Outcome = Done | Failed(error: PathError)
}
