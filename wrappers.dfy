/** The optional value used wherever the router's collaborators may answer "nothing". */
module Wrappers {

  datatype Option<+T> = None | Some(value: T)
}
