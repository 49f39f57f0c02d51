/** An optional value, shared by the modules that model JavaScript's
    `undefined`. */
module Optional {

  datatype Option<T> = None | Some(value: T)
}
