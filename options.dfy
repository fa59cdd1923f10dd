/** An optional value: `None` stands for JavaScript's `undefined`, `NaN` or
    "Invalid Date", depending on where it is used. */
module Options {

  datatype Option<+T> = None | Some(value: T)

}
