/** Java references that may be `null`, made explicit. */
module Nullable {

  /** A Java reference of type `T`: either `null` or an object. */
  datatype Nullable<+T> = Null | NonNull(value: T)
}
