/** What several parts of the model share. */
module Basics {

  /** A value that may be missing. */
  datatype Option<+T> = None | Some(value: T)

  datatype ReqId = ReqId(name: string)

  /** Below this temperature a request is greedy. */
  const SAMPLING_EPS := 0.00001

  function Min(a: int, b: int): int {
    if a <= b then a else b
  }
}
