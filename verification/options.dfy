/** The optional value used wherever the application reads something that may be absent:
    a session key, a form field, the first row of a query. */
module Options {

  datatype Option<+T> = None | Some(value: T)
}
