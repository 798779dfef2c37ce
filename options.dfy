/** The optional values the application passes around: a `null` reference,
    an `undefined` lookup result or an absent optional argument. */
module Options {

  datatype Option<+T> = None | Some(value: T)
}
