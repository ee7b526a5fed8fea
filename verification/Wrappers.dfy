/** Results of operations that the source may abort. */
module Wrappers {

  /** `None` stands for a failed GGML_ASSERT: the original aborts there. */
  datatype Option<+T> = None | Some(value: T)
}
