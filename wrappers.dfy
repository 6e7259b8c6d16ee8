/** The optional value used wherever the dispatcher may hold or return "nothing" (Python's None). */
module Wrappers {

  datatype Option<+T> = None | Some(value: T)
}
