/** The optional value used wherever the component may hold `undefined`. */
module Options {

  datatype Option<+T> = None | Some(value: T)

}
