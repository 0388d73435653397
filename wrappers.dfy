/** The Option type that stands for PHP's implicit `null` / `false` results. */
module Wrappers {

  datatype Option<+T> = None | Some(value: T)
}
