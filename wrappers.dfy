/** Small optional-value type shared by the CAM, topography and catalog models. */
module Wrappers {

  datatype Option<T> = None | Some(value: T)
}
