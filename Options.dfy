/** The optional value used for "a key that selects nothing" and "a frame
    in which no face was detected". */
module Options {
  datatype Option<T> = None | Some(value: T)
}
