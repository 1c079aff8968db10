/** Optional values: the model's stand-in for Go's nil maps, nil raw messages
    and zero times. */
module Wrappers {

  datatype Option<+T> = None | Some(value: T)
}
