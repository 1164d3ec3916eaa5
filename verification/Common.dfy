/** Value types shared by the models. Times and durations are integers (the unit
    does not matter); identifiers drawn from UUIDs or random bytes are naturals. */
module Common {

  type Time = int

  datatype Option<+T> = None | Some(value: T)

  datatype Result<+T, +E> = Success(value: T) | Failure(error: E)
}
