/** The optional value shared by the decoders, the channel and the loader. */
module Wrappers {
  datatype Option<T> = None | Some(value: T)
}
