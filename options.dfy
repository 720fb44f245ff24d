/** An optional value: PHP's `null` and JavaScript's `null` become `None`. */
module Options {

  datatype Option<+T> = None | Some(value: T)
}
