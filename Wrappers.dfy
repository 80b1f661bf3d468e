/** The optional value used for the controller's goal (std::optional in the source). */
module Wrappers {
  datatype Option<+T> = None | Some(value: T)
}
