/** Optional values: the uploaded file a request may lack, the response payload, and the
    position of the first failing check. */
module Wrappers {

  datatype Option<+T> = None | Some(value: T)
}
