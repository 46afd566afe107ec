/** The optional value used for the announcer's "maybe absent" fields. */
module Wrappers {

  datatype Option<+T> = None | Some(value: T)

}
