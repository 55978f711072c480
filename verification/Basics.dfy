/** What several components share: optional values and powers of two. */
module Basics {

  datatype Option<+T> = None | Some(value: T)

  function Pow2(n: nat): nat { if n == 0 then 1 else 2 * Pow2(n - 1) }
}
