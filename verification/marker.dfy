/** The ordering policy every bundle type is tagged with. In the crate it is a
    zero-sized type parameter; here it is a value carried by each bundle, and
    two bundles are only compared when their policies agree. */
module Marker {

  datatype EqKind =
    | ByAddress   // equality, ordering and hashing use the address the view points at
    | ByContent   // equality, ordering and hashing use the value the view denotes
}
