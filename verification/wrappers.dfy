/** Option, Result and the three-way comparison outcome that the four bundle
    types return from their fallible operations and their `cmp` impls. */
module Wrappers {

  datatype Option<+T> = None | Some(value: T)

  datatype Result<+R, +E> = Ok(value: R) | Err(error: E)

  /** The outcome of a three-way comparison, as `std::cmp::Ordering`. */
  datatype Ordering = Less | Equal | Greater {

    /** The outcome seen from the other side: `a.cmp(b).reverse() == b.cmp(a)`. */
    function Flip(): (r: Ordering)
      ensures (r == Equal) == (this == Equal)
    {
      match this
      case Less => Greater
      case Equal => Equal
      case Greater => Less
    }
  }
}
