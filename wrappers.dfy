/** The optional result of the generator: `None` when the form is refused. */
module Wrappers {

  datatype Option<+T> = None | Some(value: T)

}
