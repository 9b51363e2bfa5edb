/** The usual optional value, used for "not found" results and unset device references. */
module Options {
  datatype Option<+T> = None | Some(value: T)
}
