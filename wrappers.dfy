/** The optional values the model uses where the source has a nil pointer or nil interface. */
module Wrappers {

  datatype Option<+T> = None | Some(value: T)
}

/** File contents and wire payloads are byte sequences. */
module Bytes {

  newtype byte = b: int | 0 <= b < 256
}
