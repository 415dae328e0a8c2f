/** The usual Some/None datatype, for values the source leaves `undefined`. */
module Optional {

  datatype Option<+T> = None | Some(value: T)

}
