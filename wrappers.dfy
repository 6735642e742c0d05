/** Option and Result, used for the optional keys of a sensor record, the
    MQTT client that exists only after the first connect, and the failed
    construction of a publisher. */
module Wrappers {

  datatype Option<+T> = None | Some(value: T)

  datatype Result<+R, +E> = Success(value: R) | Failure(error: E)
}
