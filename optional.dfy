/** An optional value: a JavaScript prop that was not passed, or a parse that
    failed. */
module Optional {

  datatype Option<+T> = None | Some(value: T)
}
