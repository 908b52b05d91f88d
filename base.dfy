/** Names shared by every part of the model. */
module Base {

  /** A file name as the scripts pass it around. */
  type Path = string

  datatype Option<T> = None | Some(value: T)
}
