/** The nullable values of the application: `T | null` in TypeScript. */
module Wrappers {

  datatype Option<+T> = None | Some(value: T)
}
