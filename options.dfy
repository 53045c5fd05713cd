/** The optional value used where the script has `undefined`/`null` results. */
module Options {

  datatype Option<+T> = None | Some(value: T)

}
