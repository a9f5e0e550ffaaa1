/** The nullable references of the original (`FirstOrDefault` results, navigation
    properties, nullable query parameters) become `Option` values. */
module Wrappers {

  datatype Option<+T> = None | Some(value: T)

}
