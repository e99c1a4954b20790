// Small data shared by the modules of this project.
module Common {
  datatype Option<+T> = None | Some(value: T)

  datatype Result<+T, +E> = Ok(value: T) | Err(error: E)

  // Moments are counted in whole microseconds, the resolution of the program's datetimes.
  type Time = int

  const SECOND: int := 1_000_000

  // int(time.time()): the whole seconds of a non-negative moment.
  function WholeSeconds(now: Time): int {
    now / SECOND
  }
}
