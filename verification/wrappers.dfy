/** A value that may be missing: what the source expresses with `null` or an
    optional (`?`) field. */
module Wrappers {

  datatype Option<+T> = None | Some(value: T)
}
