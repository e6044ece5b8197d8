/** Python's `None` versus a value, as returned by `extract_order_id`
    and stored in a session's `order_id`. */
module Wrappers {
  datatype Option<+T> = None | Some(value: T)
}
