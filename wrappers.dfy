/** An optional value: a JSON field or SQL column that may be absent (`None`). */
module Wrappers {

  datatype Option<+T> = None | Some(value: T)
}
