/** Optional values. `None` also stands for "the Python code raises here". */
module Wrappers {

  datatype Option<+T> = None | Some(value: T)
}
