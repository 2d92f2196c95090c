/** The optional value used for JavaScript's `null` / missing results. */
module Wrappers {

  datatype Option<+T> = None | Some(value: T)
}
