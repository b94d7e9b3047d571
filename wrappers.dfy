/** Java references that may be null, made explicit. */
module Wrappers {

  /** A value of a Java reference type: either `null` or an actual object. */
  datatype Nullable<+T> = Null | NonNull(value: T)
}
