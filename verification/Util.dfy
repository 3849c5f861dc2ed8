/** Types and small functions shared by the models. */
module Util {
  datatype Option<+T> = None | Some(value: T)

  /** One byte of a UTF-8 string. */
  type byte = b: int | 0 <= b < 256

  /** Saturating subtraction on unsigned integers, as `u64::saturating_sub`. */
  function SatSub(a: nat, b: nat): nat {
    if a < b then 0 else a - b
  }

  function Flatten<T>(parts: seq<seq<T>>): seq<T> {
    if parts == [] then [] else parts[0] + Flatten(parts[1..])
  }
}
