/** Option and Result, and the byte strings shared by all components. */
module Wrappers {
  type Bytes = seq<bv8>

  datatype Option<+T> = None | Some(value: T)

  datatype Result<+T, +E> = Ok(value: T) | Err(error: E)

  /** A hash under which no two inputs share a digest. */
  ghost predicate CollisionFree(h: Bytes -> string) { forall a, b :: h(a) == h(b) ==> a == b }
}
