/** The nullable results of the application: a value or its absence. */
module Wrappers {

  /** A query parameter or a lookup result that may be `null`. */
  datatype Option<+T> = None | Some(value: T)

  /**
   * Strict equality (`===`) of a query parameter that may be `null` with a
   * stored string: a missing parameter equals no string.
   */
  predicate ParamIs(param: Option<string>, s: string)
  {
    param == Some(s)
  }
}
