/** The two result types shared by the modules: an optional value, and an answer or an error. */
module Outcomes {

  datatype Option<+T> = None | Some(value: T)

  datatype Answer<+T, +E> = Ok(value: T) | Err(error: E)

  const U64_MAX: nat := 0xFFFF_FFFF_FFFF_FFFF
}
