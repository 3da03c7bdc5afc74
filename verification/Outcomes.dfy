/** Result types shared by the models: the source's "value, ok" and "value, error" pairs. */
module Outcomes {
  datatype Option<+T> = None | Some(value: T)
}
