/** Stock optional-value datatype; `None` stands for the renderer's `null` result. */
module Wrappers {

  datatype Option<+T> = None | Some(value: T)
}
