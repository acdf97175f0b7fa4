/** The Option datatype used for values the source represents as "maybe absent"
    (an empty timestamp string, a missing queue position, a failed fetch). */
module Wrappers {

  datatype Option<+T> = None | Some(value: T)
}
