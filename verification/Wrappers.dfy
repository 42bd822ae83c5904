/** An optional value: the Python code's "absent" cases (a history file
    that does not exist yet, cue variables not bound yet). */
module Wrappers {

  datatype Option<+T> = None | Some(value: T)

}
