/** Optional values, used where the program can produce "nothing" (a missing
    stored list, a division with a zero divisor, an input that is not a number). */
module Wrappers {

  datatype Option<+T> = None | Some(value: T)
}
