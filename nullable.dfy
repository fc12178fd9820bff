/** JavaScript's `null` / `undefined` next to a present value. */
module Nullable {

  datatype Option<+T> = None | Some(value: T)
}
