/** The optional value used wherever JavaScript reads an `undefined`-able field. */
module Options {

  /** `None` stands for JavaScript's `undefined` (a missing argument or property). */
  datatype Option<+T> = None | Some(value: T)
}
