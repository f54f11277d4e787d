/** The optional value used for JavaScript's `null` fields and for a
    parsed number that may be NaN. */
module Options {

  datatype Option<+T> = None | Some(value: T)
}
