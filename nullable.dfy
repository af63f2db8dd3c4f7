/** A TypeScript `T | null` value: `None` stands for `null`. */
module Nullable {

  datatype Option<+T> = None | Some(value: T)
}
