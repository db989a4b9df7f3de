/** The optional value the solver passes for reference_q (a null pointer
    when there is no reference posture). */
module Wrappers {
  datatype Option<+T> = None | Some(value: T)
}
