/** Optional values: the model's stand-in for Python's None and for a QColor whose isValid() is false. */
module Wrappers {

  datatype Option<+T> = None | Some(value: T)
}
